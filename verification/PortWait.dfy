/**
 * The agent's wait for a port, on a virtual clock in nanoseconds, and the
 * client's patience with it. Only probes and pauses take time.
 */
module PortWait {
  import opened Common

  const MS: int := 1_000_000
  const PAUSE: int := 50 * MS
  const TCP_LIMIT: int := 500 * MS
  const HTTP_LIMIT: int := 2000 * MS
  const TWO63: int := 0x8000_0000_0000_0000
  const MAX_UINT32: int := 0xFFFF_FFFF
  const TIMEOUT_SLACK: int := 10_000

  datatype Mode = Tcp | Http

  function Limit(mode: Mode): int {
    match mode case Tcp => TCP_LIMIT case Http => HTTP_LIMIT
  }

  /** Go's int64 arithmetic. */
  function Wrap64(n: int): (r: int)
    ensures -TWO63 <= r < TWO63
  {
    (n + TWO63) % (2 * TWO63) - TWO63
  }

  /** time.Duration(TimeoutMs) * time.Millisecond */
  function Patience(timeoutMs: int): int { Wrap64(timeoutMs * MS) }

  function Deadline(start: int, timeoutMs: int): int { start + Patience(timeoutMs) }

  function ProbeBound(remaining: int, limit: int): int {
    if 0 < remaining < limit then remaining else limit
  }

  /** What stands behind the port and the request: how long probe k is kept
      waiting and what then comes of it, when and how the watched process exits,
      and when the caller hangs up. */
  datatype World = World(
    hangs: nat -> nat,
    answers: nat -> bool,
    exits: Option<(int, int)>,
    gone: Option<int>)

  datatype Answer = Open | Exited(code: int) | Closed | Unheard

  /** Probe k, begun at t: when it ends and whether it found the port open. */
  function Probe(w: World, k: nat, t: int, deadline: int, limit: int): (r: (int, bool))
    requires limit > 0
    ensures t <= r.0 <= t + ProbeBound(deadline - t, limit)
    ensures r.1 ==> w.answers(k)
  {
    var bound := ProbeBound(deadline - t, limit);
    var end := t + Min(w.hangs(k), bound);
    if w.gone.Some? && w.gone.value < end then (if w.gone.value < t then t else w.gone.value, false)
    else (end, w.answers(k) && w.hangs(k) < bound)
  }

  function ExitBy(w: World, t: int): Option<int> {
    match w.exits
    case Some((at, code)) => if at <= t then Some(code) else None
    case None => None
  }

  function CeilDiv(n: int, d: int): int
    requires d > 0
  {
    (n + d - 1) / d
  }

  /** Probe after probe, each from a pause after the one before: when each began
      and ended, none of them having found the port open, and each but a last
      one followed by a pause, since there was nothing to answer yet. */
  predicate Polled(w: World, start: int, deadline: int, limit: int, starts: seq<int>, ends: seq<int>)
    requires limit > 0
  {
    && |starts| == |ends|
    && (forall k :: 0 <= k < |starts| ==> Probe(w, k, starts[k], deadline, limit) == (ends[k], false))
    && (forall k :: 0 <= k < |starts| ==> starts[k] == BeginsAt(start, ends, k))
    && (forall k :: 0 <= k < |starts| ==> GoesOn(w, ends[k], deadline))
  }

  /** Probe k begins at the start, or a pause after the end of the one before. */
  function BeginsAt(start: int, ends: seq<int>, k: nat): int
    requires k <= |ends|
  {
    if k == 0 then start else ends[k - 1] + PAUSE
  }

  /** After a failed probe there is nothing to answer, and someone to wait for. */
  predicate GoesOn(w: World, now: int, deadline: int) {
    ExitBy(w, now) == None && now < deadline && !(w.gone.Some? && w.gone.value <= now + PAUSE)
  }

  /** What is answered after the last probe: the port it found; else the exit of
      the process; else, past the deadline, that it is closed; and nothing when
      the caller hangs up before the next. */
  predicate Concluded(w: World, now: int, deadline: int, found: bool, answer: Answer) {
    match answer
    case Open => found
    case Exited(code) => !found && ExitBy(w, now) == Some(code)
    case Closed => !found && ExitBy(w, now) == None && now >= deadline
    case Unheard => !found && ExitBy(w, now) == None && now < deadline && w.gone.Some? && w.gone.value <= now + PAUSE
  }

  /** A whole wait, probe by probe: the first at once, each next a pause after
      the one before, all failing but for the last, on which the answer turns. */
  predicate Waited(
    w: World, start: int, deadline: int, limit: int, starts: seq<int>, ends: seq<int>, answer: Answer)
    requires limit > 0
  {
    && |starts| == |ends| >= 1
    && var last := |starts| - 1;
       && Polled(w, start, deadline, limit, starts[..last], ends[..last])
       && starts[last] == BeginsAt(start, ends[..last], last)
       && Probe(w, last, starts[last], deadline, limit) == (ends[last], answer == Open)
       && Concluded(w, ends[last], deadline, answer == Open, answer)
  }

  /** `starts` and `ends` are when each of the probes began and ended. */
  method WaitPort(w: World, start: int, timeoutMs: int, mode: Mode)
    returns (answer: Answer, probes: nat, end: int, ghost starts: seq<int>, ghost ends: seq<int>)
    ensures probes == |starts| == |ends| >= 1 && end == ends[probes - 1]
    ensures Waited(w, start, Deadline(start, timeoutMs), Limit(mode), starts, ends, answer)
    ensures Patience(timeoutMs) >= 0 ==> probes <= CeilDiv(Patience(timeoutMs), PAUSE) + 1
    ensures Patience(timeoutMs) <= 0 ==> probes == 1 && end <= start + Limit(mode)
    ensures Patience(timeoutMs) > 0 ==> start <= end < start + Patience(timeoutMs) + PAUSE + Limit(mode)
    ensures forall k: nat, h: nat :: OpensFrom(w, k, h, Limit(mode)) && IsPatient(timeoutMs, k, h, mode) ==>
              answer == Open && probes <= k + 1
    ensures TellsExit(w, start, Deadline(start, timeoutMs), Limit(mode), probes, end, answer)
    ensures TellsCaller(w, start, Limit(mode), probes, end, answer)
  {
    assert PAUSE > 0;
    hide *;
    var limit := Limit(mode);
    LimitPositive(mode);
    var deadline := Deadline(start, timeoutMs);
    var now := start;
    starts, ends, probes := [], [], 0;
    NonePolled(w, start, deadline, limit);
    while true
      invariant probes == |starts| == |ends|
      invariant Polled(w, start, deadline, limit, starts, ends)
      invariant now == BeginsAt(start, ends, probes)
      decreases deadline + PAUSE - now
    {
      var probe := Probe(w, probes, now, deadline, limit);
      assert probe.0 >= now;
      ghost var before, ended := starts, ends;
      starts, ends, probes := starts + [now], ends + [probe.0], probes + 1;
      now := probe.0;
      var exit := ExitBy(w, now);
      if probe.1 {
        answer := Open;
      } else if exit.Some? {
        answer := Exited(exit.value);
      } else if deadline - now <= 0 {
        answer := Closed;
      } else {
        answer := Unheard;
      }
      if answer != Unheard || (w.gone.Some? && w.gone.value <= now + PAUSE) {
        Conclusion(w, now, deadline, probe.1, answer);
        Finished(w, start, deadline, limit, before, ended, starts, ends, answer);
        WaitBounds(w, start, timeoutMs, mode, starts, ends, answer);
        OpenPortsAreFound(w, start, timeoutMs, mode, starts, ends, answer);
        ExitIsTold(w, start, deadline, limit, starts, ends, answer);
        CallerIsTold(w, start, deadline, limit, starts, ends, answer);
        return answer, probes, now, starts, ends;
      }
      OneMorePolled(w, start, deadline, limit, before, ended, starts[probes - 1], now);
      now := now + PAUSE;
    }
  }

  lemma {:induction false} Finished(
    w: World, start: int, deadline: int, limit: int, before: seq<int>, ended: seq<int>,
    starts: seq<int>, ends: seq<int>, answer: Answer)
    requires limit > 0 && |before| == |ended| && |starts| == |ends| == |before| + 1
    requires starts == before + [starts[|before|]] && ends == ended + [ends[|before|]]
    requires Polled(w, start, deadline, limit, before, ended)
    requires starts[|before|] == BeginsAt(start, ended, |before|)
    requires Probe(w, |before|, starts[|before|], deadline, limit) == (ends[|before|], answer == Open)
    requires Concluded(w, ends[|before|], deadline, answer == Open, answer)
    ensures Waited(w, start, deadline, limit, starts, ends, answer)
  {
    hide Polled, BeginsAt, Probe, Concluded;
    assert starts[..|before|] == before && ends[..|before|] == ended;
  }

  /** However long the probes hang, a wait has no more of them than there are
      pauses before the deadline, and ends soon after it. */
  lemma {:induction false} WaitBounds(
    w: World, start: int, timeoutMs: int, mode: Mode, starts: seq<int>, ends: seq<int>, answer: Answer)
    requires Limit(mode) > 0 && Waited(w, start, Deadline(start, timeoutMs), Limit(mode), starts, ends, answer)
    ensures var patience := Patience(timeoutMs);
            && (patience >= 0 ==> |starts| <= CeilDiv(patience, PAUSE) + 1)
            && (patience <= 0 ==> |starts| == 1 && ends[|starts| - 1] <= start + Limit(mode))
            && (patience > 0 ==> start <= ends[|starts| - 1] < start + patience + PAUSE + Limit(mode))
  {
    hide Patience, CeilDiv, Limit, Polled, Probe, ProbeBound, Concluded;
    var deadline, last := Deadline(start, timeoutMs), |starts| - 1;
    PolledBounds(w, start, deadline, Limit(mode), starts[..last], ends[..last]);
    Bounded(starts[last], deadline, Limit(mode));
    PausesTimes(last);
    PauseCount(last, Patience(timeoutMs));
  }

  lemma {:induction false} NonePolled(w: World, start: int, deadline: int, limit: int)
    requires limit > 0
    ensures Polled(w, start, deadline, limit, [], []) && BeginsAt(start, [], 0) == start
  {
  }

  lemma {:induction false} OneMorePolled(
    w: World, start: int, deadline: int, limit: int, starts: seq<int>, ends: seq<int>, begin: int, end: int)
    requires limit > 0 && Polled(w, start, deadline, limit, starts, ends)
    requires begin == BeginsAt(start, ends, |ends|) && Probe(w, |starts|, begin, deadline, limit) == (end, false)
    requires ExitBy(w, end) == None && end < deadline && !(w.gone.Some? && w.gone.value <= end + PAUSE)
    ensures Polled(w, start, deadline, limit, starts + [begin], ends + [end])
    ensures BeginsAt(start, ends + [end], |ends| + 1) == end + PAUSE
  {
    hide Probe, ExitBy, PAUSE, Limit;
    var n := |starts|;
    assert GoesOn(w, end, deadline);
    assert forall k :: 0 <= k < n ==> (starts + [begin])[k] == starts[k] && (ends + [end])[k] == ends[k];
    assert forall k :: 0 <= k <= n ==> BeginsAt(start, ends + [end], k) == BeginsAt(start, ends, k);
    hide GoesOn;
  }

  /** However the probes hang, the next begins no earlier than the pauses before
      it allow, and, after the first, before the deadline and a pause. */
  lemma {:induction false} PolledBounds(
    w: World, start: int, deadline: int, limit: int, starts: seq<int>, ends: seq<int>)
    requires limit > 0 && Polled(w, start, deadline, limit, starts, ends)
    ensures BeginsAt(start, ends, |ends|) >= start + Pauses(|ends|)
    ensures |ends| > 0 ==>
              BeginsAt(start, ends, |ends|) < deadline + PAUSE && Pauses(|ends|) - PAUSE < deadline - start && start < deadline
    decreases |ends|
  {
    hide Polled;
    if |ends| > 0 {
      var n := |ends| - 1;
      PolledPrefix(w, start, deadline, limit, starts, ends, n);
      PolledBounds(w, start, deadline, limit, starts[..n], ends[..n]);
      PolledAt(w, start, deadline, limit, starts, ends, n);
      assert BeginsAt(start, ends[..n], n) == BeginsAt(start, ends, n);
    }
  }

  lemma {:induction false} PolledAt(
    w: World, start: int, deadline: int, limit: int, starts: seq<int>, ends: seq<int>, k: nat)
    requires limit > 0 && Polled(w, start, deadline, limit, starts, ends) && k < |ends|
    ensures Probe(w, k, BeginsAt(start, ends, k), deadline, limit) == (ends[k], false)
    ensures BeginsAt(start, ends, k) <= ends[k] <= BeginsAt(start, ends, k) + limit && ends[k] < deadline
  {
    hide Probe, ExitBy;
    assert Probe(w, k, starts[k], deadline, limit) == (ends[k], false) && GoesOn(w, ends[k], deadline);
  }

  lemma {:induction false} PolledPrefix(
    w: World, start: int, deadline: int, limit: int, starts: seq<int>, ends: seq<int>, k: nat)
    requires limit > 0 && Polled(w, start, deadline, limit, starts, ends) && k <= |ends|
    ensures |starts| == |ends| && Polled(w, start, deadline, limit, starts[..k], ends[..k])
  {
    hide Probe, GoesOn;
    assert forall j :: 0 <= j <= k ==> BeginsAt(start, ends[..k], j) == BeginsAt(start, ends, j);
  }

  lemma {:induction false} Conclusion(w: World, now: int, deadline: int, found: bool, answer: Answer)
    requires match answer
             case Open => found
             case Exited(code) => !found && ExitBy(w, now) == Some(code)
             case Closed => !found && ExitBy(w, now) == None && now >= deadline
             case Unheard => !found && ExitBy(w, now) == None && now < deadline
                             && w.gone.Some? && w.gone.value <= now + PAUSE
    ensures Concluded(w, now, deadline, found, answer)
  {
  }

  // ---- an open port is found ----

  /** From probe k on the port answers within h nanoseconds; the process has not
      exited, and the caller stays. */
  ghost predicate OpensFrom(w: World, k: nat, h: nat, limit: int) {
    h < limit && w.exits == None && w.gone == None && forall j: nat :: k <= j ==> w.answers(j) && w.hangs(j) <= h
  }

  function Delay(k: nat, step: int): int {
    if k == 0 then 0 else Delay(k - 1, step) + step
  }

  /** The patience covers k probes that take all the time they may, and one that
      takes h. */
  predicate IsPatient(timeoutMs: int, k: nat, h: nat, mode: Mode) {
    Delay(k, Limit(mode) + PAUSE) + h < Patience(timeoutMs)
  }

  lemma {:induction false} DelayGrows(j: nat, k: nat, step: int)
    requires j <= k && step >= 0
    ensures Delay(j, step) <= Delay(k, step)
    decreases k
  {
    if j < k {
      DelayGrows(j, k - 1, step);
    }
  }

  lemma {:induction false} BeginsBy(w: World, start: int, deadline: int, limit: int, starts: seq<int>, ends: seq<int>)
    requires limit > 0 && Polled(w, start, deadline, limit, starts, ends)
    ensures BeginsAt(start, ends, |ends|) <= start + Delay(|ends|, limit + PAUSE)
    decreases |ends|
  {
    hide Polled;
    if |ends| > 0 {
      var n := |ends| - 1;
      PolledPrefix(w, start, deadline, limit, starts, ends, n);
      BeginsBy(w, start, deadline, limit, starts[..n], ends[..n]);
      PolledAt(w, start, deadline, limit, starts, ends, n);
      assert BeginsAt(start, ends[..n], n) == BeginsAt(start, ends, n);
    }
  }

  /** A probe that begins with time to spare finds such a port. */
  lemma {:induction false} ProbeFinds(w: World, j: nat, k: nat, h: nat, t: int, deadline: int, limit: int)
    requires OpensFrom(w, k, h, limit) && k <= j && t + h < deadline
    ensures Probe(w, j, t, deadline, limit).1
  {
  }

  /** A port that opens is found, if the patience reaches so far: not missed by
      any probe that could find it, and not given up on before. */
  lemma {:induction false} OpenPortIsFound(
    w: World, start: int, timeoutMs: int, mode: Mode, starts: seq<int>, ends: seq<int>, answer: Answer, k: nat, h: nat)
    requires Limit(mode) > 0 && Waited(w, start, Deadline(start, timeoutMs), Limit(mode), starts, ends, answer)
    requires OpensFrom(w, k, h, Limit(mode)) && IsPatient(timeoutMs, k, h, mode)
    ensures answer == Open && |starts| <= k + 1
  {
    hide Probe, Patience, Limit, ExitBy, Polled, OpensFrom;
    var limit, deadline, last := Limit(mode), Deadline(start, timeoutMs), |starts| - 1;
    var before, ended := starts[..last], ends[..last];
    if last < k {
      BeginsBy(w, start, deadline, limit, before, ended);
      Bounded(starts[last], deadline, limit);
      DelayGrows(last + 1, k, limit + PAUSE);
      NotGivenUp(w, k, h, limit, ends[last], deadline, answer);
    } else {
      BeginsBy(w, start, deadline, limit, before[..k], ended[..k]) by {
        PolledPrefix(w, start, deadline, limit, before, ended, k);
      }
      assert BeginsAt(start, ended[..k], k) == BeginsAt(start, ended, k);
      ProbeFinds(w, k, k, h, BeginsAt(start, ended, k), deadline, limit);
      if k < last {
        PolledAt(w, start, deadline, limit, before, ended, k);
      }
    }
  }

  /** Short of the deadline there is no other answer. */
  lemma {:induction false} NotGivenUp(
    w: World, k: nat, h: nat, limit: int, now: int, deadline: int, answer: Answer)
    requires OpensFrom(w, k, h, limit) && now < deadline && Concluded(w, now, deadline, answer == Open, answer)
    ensures answer == Open
  {
  }

  lemma {:induction false} OpenPortsAreFound(
    w: World, start: int, timeoutMs: int, mode: Mode, starts: seq<int>, ends: seq<int>, answer: Answer)
    requires Limit(mode) > 0 && Waited(w, start, Deadline(start, timeoutMs), Limit(mode), starts, ends, answer)
    ensures forall k: nat, h: nat :: OpensFrom(w, k, h, Limit(mode)) && IsPatient(timeoutMs, k, h, mode) ==>
              answer == Open && |starts| <= k + 1
  {
    hide *;
    forall k: nat, h: nat | OpensFrom(w, k, h, Limit(mode)) && IsPatient(timeoutMs, k, h, mode)
      ensures answer == Open && |starts| <= k + 1 {
      OpenPortIsFound(w, start, timeoutMs, mode, starts, ends, answer, k, h);
    }
  }

  // ---- an exit is told ----

  /** An exit is answered with its own code, once it has happened, and within a
      pause and a probe of that; "not open" only of a process that has not
      exited, past the deadline. So of a port that never opens the exit by the
      deadline is told, or else that it is closed. */
  ghost predicate TellsExit(w: World, start: int, deadline: int, limit: int, probes: nat, end: int, answer: Answer) {
    && (answer.Exited? ==>
          && w.exits.Some? && w.exits.value.1 == answer.code && w.exits.value.0 <= end
          && (end < w.exits.value.0 + PAUSE + limit || (probes == 1 && end <= start + limit)))
    && (answer.Closed? ==> end >= deadline && (w.exits.Some? ==> end < w.exits.value.0))
    && (w.gone == None && (forall k: nat :: !w.answers(k)) ==>
          && (w.exits.Some? && w.exits.value.0 <= deadline ==> answer == Exited(w.exits.value.1))
          && (w.exits == None ==> answer == Closed))
  }

  lemma {:induction false} ExitIsTold(
    w: World, start: int, deadline: int, limit: int, starts: seq<int>, ends: seq<int>, answer: Answer)
    requires limit > 0 && Waited(w, start, deadline, limit, starts, ends, answer)
    ensures TellsExit(w, start, deadline, limit, |starts|, ends[|starts| - 1], answer)
  {
    hide Probe, Polled;
    var last := |starts| - 1;
    Bounded(starts[last], deadline, limit);
    if last > 0 {
      NotExited(w, start, deadline, limit, starts[..last], ends[..last], last - 1);
    }
  }

  /** "Open" is of a port that answered the last probe in time; only a caller who
      hangs up within the next pause is left without an answer; and nobody is
      waited for after hanging up. */
  ghost predicate TellsCaller(w: World, start: int, limit: int, probes: nat, end: int, answer: Answer)
    requires probes > 0
  {
    && (answer.Open? ==> w.answers(probes - 1) && w.hangs(probes - 1) < limit)
    && (answer.Unheard? ==> w.gone.Some? && w.gone.value <= end + PAUSE)
    && (w.gone.Some? ==> end <= start || end <= w.gone.value)
  }

  lemma {:induction false} CallerIsTold(
    w: World, start: int, deadline: int, limit: int, starts: seq<int>, ends: seq<int>, answer: Answer)
    requires limit > 0 && Waited(w, start, deadline, limit, starts, ends, answer)
    ensures TellsCaller(w, start, limit, |starts|, ends[|starts| - 1], answer)
  {
    hide Polled, ExitBy;
    var last := |starts| - 1;
    Bounded(starts[last], deadline, limit);
    if last > 0 {
      StillThere(w, start, deadline, limit, starts[..last], ends[..last], last - 1);
    }
  }

  lemma {:induction false} StillThere(
    w: World, start: int, deadline: int, limit: int, starts: seq<int>, ends: seq<int>, k: nat)
    requires limit > 0 && Polled(w, start, deadline, limit, starts, ends) && k < |ends|
    ensures w.gone.Some? ==> ends[k] + PAUSE < w.gone.value
  {
    hide Probe, ExitBy;
    assert GoesOn(w, ends[k], deadline);
  }

  lemma {:induction false} NotExited(
    w: World, start: int, deadline: int, limit: int, starts: seq<int>, ends: seq<int>, k: nat)
    requires limit > 0 && Polled(w, start, deadline, limit, starts, ends) && k < |ends|
    ensures ExitBy(w, ends[k]) == None
  {
    hide Probe;
    assert GoesOn(w, ends[k], deadline);
  }

  lemma {:induction false} LimitPositive(mode: Mode)
    ensures 0 < TCP_LIMIT <= Limit(mode) <= HTTP_LIMIT
  {
  }

  lemma {:induction false} Bounded(now: int, deadline: int, limit: int)
    requires limit > 0
    ensures 0 < ProbeBound(deadline - now, limit) <= limit
    ensures now < deadline ==> now + ProbeBound(deadline - now, limit) <= deadline
  {
  }

  function Pauses(k: nat): int {
    if k == 0 then 0 else Pauses(k - 1) + PAUSE
  }

  lemma {:induction false} PausesTimes(k: nat)
    ensures Pauses(k) == k * 50_000_000
  {
    if k > 0 {
      PausesTimes(k - 1);
    }
  }

  /** k pauses before the patience ran out leave room for k + 1 probes at most. */
  lemma {:induction false} PauseCount(k: nat, patience: int)
    ensures k > 0 && Pauses(k) - PAUSE < patience ==> k <= CeilDiv(patience, PAUSE)
    ensures patience >= 0 ==> 0 <= CeilDiv(patience, PAUSE)
  {
    PausesTimes(k);
  }

  // ---- the deadline arithmetic ----

  /** The patience is the caller's timeout exactly when that, in nanoseconds, is
      an int64. */
  lemma {:induction false} PatienceExactly(timeoutMs: int)
    requires -TWO63 <= timeoutMs < TWO63
    ensures Patience(timeoutMs) == timeoutMs * MS <==> -9_223_372_036_854 <= timeoutMs <= 9_223_372_036_854
  {
    if -TWO63 <= timeoutMs * MS < TWO63 {
      assert (timeoutMs * MS + TWO63) % (2 * TWO63) == timeoutMs * MS + TWO63;
    }
  }

  /** A timeout of nearly three hundred years is a deadline in the past. */
  lemma {:induction false} LongTimeoutWraps()
    ensures Patience(9_223_372_036_855) < 0
  {
    assert 9_223_372_036_855 * MS + TWO63 == 2 * TWO63 + 224_192;
  }

  /** What AbortSignal.timeout does with a delay: too large for a timer, it
      fires after a millisecond; too large for 32 bits, it throws. */
  function AbortAfter(ms: int): Option<int> {
    if ms < 0 || ms > MAX_UINT32 then None
    else if 1 <= ms <= MAX_TIMER then Some(ms)
    else Some(1)
  }

  /** The client's abort of waitForPort comes after the latest answer the agent
      can give, with more than seven seconds to spare, exactly for timeouts up
      to 2^31 - 1 - 10000. The slack is not clamped to what a timer holds, as it
      is for bounded reads. */
  lemma {:induction false} AbortAfterAnswer(timeoutMs: int)
    requires 0 <= timeoutMs <= MAX_UINT32 - TIMEOUT_SLACK
    ensures AbortAfter(timeoutMs + TIMEOUT_SLACK).Some?
    ensures timeoutMs <= MAX_TIMER - TIMEOUT_SLACK <==>
            AbortAfter(timeoutMs + TIMEOUT_SLACK).value * MS >= Patience(timeoutMs) + PAUSE + HTTP_LIMIT + 7000 * MS
  {
    PatienceExactly(timeoutMs);
  }

  /** A wait as the client makes it. When its timeout is small enough for the
      timer, the answer is there before the abort, on a network that takes less
      than seven seconds. */
  method WaitForPort(w: World, start: int, timeoutMs: int, mode: Mode, transit: nat)
    returns (answer: Option<Answer>, probes: nat)
    requires 0 <= timeoutMs && transit <= 7000 * MS
    ensures timeoutMs <= MAX_TIMER - TIMEOUT_SLACK && w.gone == None ==> answer.Some? && !answer.value.Unheard?
    ensures timeoutMs > MAX_UINT32 - TIMEOUT_SLACK ==> answer == None
    ensures timeoutMs > MAX_TIMER - TIMEOUT_SLACK && w.gone == None && w.hangs(0) >= 2 * MS ==> answer == None
    ensures answer.Some? ==> 1 <= probes <= CeilDiv(timeoutMs * MS, PAUSE) + 1
    ensures answer.Some? ==>
              exists starts, ends ::
                |starts| == probes && Waited(w, start, Deadline(start, timeoutMs), Limit(mode), starts, ends, answer.value)
  {
    hide Probe, Polled, Concluded, BeginsAt, OpensFrom, IsPatient, TellsExit, TellsCaller, CeilDiv, Limit, Patience;
    var abort := AbortAfter(timeoutMs + TIMEOUT_SLACK);
    if abort.None? { return None, 0; }
    var reply, made, end, starts, ends := WaitPort(w, start, timeoutMs, mode);
    probes := made;
    PatienceExactly(timeoutMs);
    AbortAfterAnswer(timeoutMs);
    LimitPositive(mode);
    if w.gone == None {
      Heard(w, end, Deadline(start, timeoutMs), reply == Open, reply);
      EndsAfterFirst(w, start, Deadline(start, timeoutMs), Limit(mode), starts, ends, reply == Open);
    }
    answer := if end + transit <= start + abort.value * MS then Some(reply) else None;
  }

  /** Only a caller that hangs up gets no answer. */
  lemma {:induction false} Heard(w: World, now: int, deadline: int, found: bool, answer: Answer)
    requires Concluded(w, now, deadline, found, answer) && w.gone == None
    ensures answer != Unheard
  {
  }

  /** A wait takes at least as long as its first probe. */
  lemma {:induction false} EndsAfterFirst(
    w: World, start: int, deadline: int, limit: int, starts: seq<int>, ends: seq<int>, found: bool)
    requires limit > 0 && |starts| == |ends| >= 1 && w.gone == None
    requires var last := |starts| - 1;
             && Polled(w, start, deadline, limit, starts[..last], ends[..last])
             && starts[last] == BeginsAt(start, ends[..last], last)
             && Probe(w, last, starts[last], deadline, limit) == (ends[last], found)
    ensures ends[|ends| - 1] >= start + Min(w.hangs(0), ProbeBound(deadline - start, limit))
  {
    var last := |starts| - 1;
    if last > 0 {
      hide ExitBy;
      PolledPrefix(w, start, deadline, limit, starts[..last], ends[..last], 1);
      FirstEnds(w, start, deadline, limit, starts[..last], ends[..last], last);
    }
  }

  lemma {:induction false} FirstEnds(
    w: World, start: int, deadline: int, limit: int, starts: seq<int>, ends: seq<int>, n: nat)
    requires limit > 0 && w.gone == None && Polled(w, start, deadline, limit, starts, ends) && 0 < n <= |ends|
    ensures BeginsAt(start, ends, n) >= start + Min(w.hangs(0), ProbeBound(deadline - start, limit))
    decreases n
  {
    hide GoesOn;
    assert Probe(w, n - 1, starts[n - 1], deadline, limit) == (ends[n - 1], false);
    if n > 1 {
      FirstEnds(w, start, deadline, limit, starts, ends, n - 1);
    }
  }
}
