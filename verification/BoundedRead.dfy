/**
 * A bounded read, on both sides of the wire: the budget the adapter accepts,
 * the agent's read of a file that may change under it, and the client's
 * accumulation of the answer.
 */
module BoundedRead {
  import opened Common
  import Base64
  import Decimal

  const MAX_SAFE: int := 0x1F_FFFF_FFFF_FFFF
  const READ_SLACK: int := 1000

  // ---- the budget ----

  /** A JavaScript number: NaN and the infinities, or a value. */
  datatype Number = NotFinite | Finite(x: real)

  predicate IsWhole(x: real) { x.Floor as real == x }

  predicate IsSafeInteger(n: Number) {
    n.Finite? && IsWhole(n.x) && -MAX_SAFE <= n.x.Floor <= MAX_SAFE
  }

  function Ceil(x: real): int { -((-x).Floor) }

  /** What a double division by three may give for an integer below 2^53: the
      exact third where there is one, and never off by more than a quarter. */
  predicate IsThird(n: int, q: real) {
    && n as real / 3.0 - 0.25 <= q <= n as real / 3.0 + 0.25
    && (n % 3 == 0 ==> q == (n / 3) as real)
  }

  /** isValidBudget; `third` is the value of maxBytes / 3. */
  predicate IsValidBudget(maxBytes: Number, timeoutMs: Number, third: real) {
    && IsSafeInteger(maxBytes)
    && maxBytes.x >= 0.0
    && IsSafeInteger(Finite((4 * Ceil(third)) as real))
    && timeoutMs.Finite?
    && timeoutMs.x > 0.0
    && timeoutMs.x <= MAX_TIMER as real
  }

  /** The agent's own checks of the two parameters. */
  predicate AgentAccepts(maxBytes: string, timeoutMs: string) {
    && Decimal.ParseInt64(maxBytes).Some? && 0 <= Decimal.ParseInt64(maxBytes).value <= MAX_SAFE
    && Decimal.ParseInt64(timeoutMs).Some? && 0 < Decimal.ParseInt64(timeoutMs).value <= MAX_TIMER
  }

  lemma {:induction false} FloorOf(x: real, n: int)
    requires n as real <= x < (n + 1) as real
    ensures x.Floor == n
  {
    assert x.Floor as real <= x < (x.Floor + 1) as real;
  }

  /** The rounded quotient still rounds up to the right integer. */
  lemma {:induction false} CeilOfThird(n: nat, q: real)
    requires IsThird(n, q)
    ensures Ceil(q) == (n + 2) / 3
  {
    var k := n / 3;
    var exact := n as real / 3.0;
    if n % 3 == 0 {
      FloorOf(-q, -k);
    } else {
      assert n as real == 3.0 * k as real + (n % 3) as real;
      assert exact == k as real + (n % 3) as real / 3.0;
      assert k as real < q <= (k + 1) as real;
      FloorOf(-q, -(k + 1));
    }
  }

  lemma {:induction false} WholeIsInteger(n: int)
    ensures IsWhole(n as real) && (n as real).Floor == n
  {
  }

  /** Exactly which budgets are accepted: byte counts up to three times 2^51 - 1,
      however the division rounds. */
  lemma {:induction false} ValidBudgetExactly(maxBytes: Number, timeoutMs: Number, third: real)
    requires maxBytes.Finite? && IsWhole(maxBytes.x) ==> IsThird(maxBytes.x.Floor, third)
    ensures IsValidBudget(maxBytes, timeoutMs, third) <==>
            (maxBytes.Finite? && IsWhole(maxBytes.x) && 0 <= maxBytes.x.Floor <= 3 * 0x7_FFFF_FFFF_FFFF
             && timeoutMs.Finite? && 0.0 < timeoutMs.x <= MAX_TIMER as real)
  {
    if maxBytes.Finite? && IsWhole(maxBytes.x) {
      var n := maxBytes.x.Floor;
      if n >= 0 {
        CeilOfThird(n, third);
        WholeIsInteger(4 * ((n + 2) / 3));
      } else {
        assert maxBytes.x < 0.0;
      }
    }
  }

  lemma {:induction false} CeilBounds(x: real)
    requires 0.0 < x <= MAX_TIMER as real
    ensures 1 <= Ceil(x) <= MAX_TIMER
  {
    var f := (-x).Floor;
    assert f as real <= -x < (f + 1) as real;
  }

  /** Of the numbers a client can print the agent accepts exactly these. */
  lemma {:induction false} AgentAcceptsExactly(maxBytes: int, timeoutMs: int)
    ensures AgentAccepts(Decimal.PrintInt(maxBytes), Decimal.PrintInt(timeoutMs))
            <==> 0 <= maxBytes <= 0x1F_FFFF_FFFF_FFFF && 1 <= timeoutMs <= 0x7FFF_FFFF
  {
    Decimal.ParseInt64Print(maxBytes);
    Decimal.ParseInt64Print(timeoutMs);
  }

  /** A budget the adapter accepts never fails the agent's checks, and any
      answer within it has a base64 text whose length is a safe integer and
      which reads back as the same bytes. */
  lemma {:induction false} ValidBudgetPasses(maxBytes: Number, timeoutMs: Number, third: real, data: seq<byte>)
    requires maxBytes.Finite? && IsWhole(maxBytes.x) ==> IsThird(maxBytes.x.Floor, third)
    requires IsValidBudget(maxBytes, timeoutMs, third)
    ensures AgentAccepts(Decimal.PrintInt(maxBytes.x.Floor), Decimal.PrintInt(Ceil(timeoutMs.x)))
    ensures |data| <= maxBytes.x.Floor ==>
              |Base64.Encode(data)| == 4 * ((|data| + 2) / 3) && IsSafeInteger(Finite(|Base64.Encode(data)| as real))
              && Base64.Decode(Base64.Encode(data)) == data
  {
    ValidBudgetExactly(maxBytes, timeoutMs, third);
    CeilBounds(timeoutMs.x);
    Decimal.ParseInt64Print(maxBytes.x.Floor);
    Decimal.ParseInt64Print(Ceil(timeoutMs.x));
    Base64.EncodedShape(data);
    Base64.RoundTrip(data);
    WholeIsInteger(|Base64.Encode(data)|);
  }

  // ---- the client's patience ----

  function BoundedReadGiveUpMs(timeoutMs: int): int {
    Min(timeoutMs + READ_SLACK, MAX_TIMER)
  }

  /** Node runs a timer that is too long for it after one millisecond. */
  function TimerDelay(ms: int): int {
    if 1 <= ms <= MAX_TIMER then ms else 1
  }

  /** For every deadline the agent accepts, the client's timer runs as long as
      asked, and never out before that deadline. Without the clamp it would, for
      exactly the deadlines within the slack of the largest. */
  lemma {:induction false} GiveUpAfterTheAgent(timeoutMs: int)
    requires 0 < timeoutMs <= MAX_TIMER
    ensures TimerDelay(BoundedReadGiveUpMs(timeoutMs)) == BoundedReadGiveUpMs(timeoutMs) >= timeoutMs
    ensures timeoutMs <= MAX_TIMER - READ_SLACK ==> BoundedReadGiveUpMs(timeoutMs) == timeoutMs + READ_SLACK
    ensures TimerDelay(timeoutMs + READ_SLACK) >= timeoutMs <==> timeoutMs <= MAX_TIMER - READ_SLACK || timeoutMs == 1
  {
  }

  // ---- the agent's read ----

  datatype ReadError = NotRegular | OverBudget | Grew | ContextDone | ReadFailed

  datatype ReadResult = Ok(data: seq<byte>) | Err(error: ReadError)

  /** An open file, the bytes of which others may change at any moment. */
  class OpenFile {
    const regular: bool
    const world: nat -> seq<byte>
    /** The most the kernel hands over at that moment. */
    const gives: nat -> nat
    const fails: nat -> bool
    var clock: nat
    var pos: nat

    constructor (regular: bool, world: nat -> seq<byte>, gives: nat -> nat, fails: nat -> bool)
      ensures this.regular == regular && this.world == world && this.gives == gives && this.fails == fails
      ensures clock == 0 && pos == 0
    {
      this.regular, this.world, this.gives, this.fails := regular, world, gives, fails;
      clock, pos := 0, 0;
    }

    /** fstat(2): the size, None when it fails. */
    method Stat() returns (size: Option<nat>)
      modifies `clock
      ensures clock == old(clock) + 1
      ensures size == if fails(old(clock)) then None else Some(|world(old(clock))|)
    {
      size := if fails(clock) then None else Some(|world(clock)|);
      clock := clock + 1;
    }

    /** read(2): at least a byte unless the file ends here; None is an error. */
    method Read(room: nat) returns (r: Option<seq<byte>>)
      requires room > 0
      modifies this
      ensures clock == old(clock) + 1
      ensures r == None <==> fails(old(clock))
      ensures r == None ==> pos == old(pos)
      ensures r.Some? ==>
                var now := world(old(clock));
                |r.value| <= room && pos == old(pos) + |r.value|
                && (r.value == [] <==> |now| <= old(pos))
                && (r.value != [] ==> pos <= |now| && r.value == now[old(pos)..pos])
    {
      var t := clock;
      clock := clock + 1;
      if fails(t) { return None; }
      var now := world(t);
      if |now| <= pos { return Some([]); }
      var n := Min(Min(if gives(t) > 0 then gives(t) else 1, room), |now| - pos);
      r := Some(now[pos..pos + n]);
      pos := pos + n;
    }
  }

  /** Byte k was at offset k of the file at the moment it was read. */
  ghost predicate WasThere(world: nat -> seq<byte>, data: seq<byte>, moments: seq<nat>, from: nat, to: nat) {
    |moments| == |data|
    && forall k :: 0 <= k < |data| ==>
         from <= moments[k] < to && k < |world(moments[k])| && data[k] == world(moments[k])[k]
  }

  lemma {:induction false} LaterThere(world: nat -> seq<byte>, data: seq<byte>, moments: seq<nat>, from: nat, to: nat)
    requires WasThere(world, data, moments, from, to)
    ensures WasThere(world, data, moments, from, to + 1)
  {
  }

  lemma {:induction false} MoreThere(
    world: nat -> seq<byte>, data: seq<byte>, moments: seq<nat>, from: nat, to: nat, more: seq<byte>)
    requires from <= to && WasThere(world, data, moments, from, to)
    requires |data| + |more| <= |world(to)| && more == world(to)[|data|..|data| + |more|]
    ensures WasThere(world, data + more, moments + seq(|more|, _ => to), from, to + 1)
  {
  }

  /** Nothing stops a read between these moments. */
  ghost predicate Quiet(file: OpenFile, done: nat -> bool, from: nat, to: nat) {
    forall t :: from <= t < to ==> !done(t) && !file.fails(t)
  }

  /** The read proper: fstat, then up to a byte past the budget. `room` is what
      the growing buffer offers each time, `done` whether the context is over. */
  method ReadBounded(file: OpenFile, maxBytes: nat, done: nat -> bool, room: nat -> nat) returns (r: ReadResult)
    requires file.pos == 0 && forall t :: room(t) > 0
    modifies file
    ensures r.Ok? ==>
              |r.data| <= maxBytes && file.regular
              && (exists moments :: WasThere(file.world, r.data, moments, old(file.clock), file.clock))
              && file.clock > old(file.clock) && |file.world(file.clock - 1)| <= |r.data|
    ensures file.clock >= old(file.clock)
    ensures r == Err(NotRegular) <==> !file.fails(old(file.clock)) && !file.regular
    ensures r == Err(OverBudget) <==>
            !file.fails(old(file.clock)) && file.regular && |file.world(old(file.clock))| > maxBytes
    ensures r == Err(Grew) ==> file.pos == maxBytes + 1
    ensures r == Err(Grew) ==> exists t :: old(file.clock) <= t < file.clock && |file.world(t)| > maxBytes
    ensures r == Err(ContextDone) || r == Err(ReadFailed) ==> !Quiet(file, done, old(file.clock), file.clock + 1)
  {
    ghost var start := file.clock;
    var size := file.Stat();
    if size.None? {
      assert start <= start < file.clock + 1;
      return Err(ReadFailed);
    }
    if !file.regular { return Err(NotRegular); }
    if size.value > maxBytes { return Err(OverBudget); }
    var data: seq<byte> := [];
    ghost var moments: seq<nat> := [];
    var left := maxBytes + 1;
    while left > 0
      invariant 0 <= left && left + |data| == maxBytes + 1 && file.pos == |data|
      invariant start < file.clock
      invariant WasThere(file.world, data, moments, start, file.clock)
      invariant left == 0 ==> exists t :: start <= t < file.clock && |file.world(t)| > maxBytes
      decreases left
    {
      if done(file.clock) {
        assert start <= file.clock < file.clock + 1;
        return Err(ContextDone);
      }
      ghost var t := file.clock;
      var chunk := file.Read(Min(room(file.clock), left));
      if chunk.None? {
        return Err(ReadFailed);
      }
      if chunk.value == [] {
        LaterThere(file.world, data, moments, start, t);
        break;
      }
      MoreThere(file.world, data, moments, start, t, chunk.value);
      moments := moments + seq(|chunk.value|, _ => t);
      data, left := data + chunk.value, left - |chunk.value|;
      assert left == 0 ==> |file.world(t)| > maxBytes;
    }
    if |data| > maxBytes { return Err(Grew); }
    assert WasThere(file.world, data, moments, start, file.clock);
    r := Ok(data);
  }

  lemma {:induction false} SteadyContent(
    world: nat -> seq<byte>, data: seq<byte>, moments: seq<nat>, from: nat, to: nat, content: seq<byte>)
    requires WasThere(world, data, moments, from, to) && from < to && |world(to - 1)| <= |data|
    requires forall t :: world(t) == content
    ensures data == content
  {
    assert |content| <= |data|;
    if |data| > 0 {
      assert |data| - 1 < |world(moments[|data| - 1])|;
    }
  }

  /** Of a file that nobody changes while it is read, with nothing in the way:
      all of it, exactly when it fits. */
  method ReadSteady(file: OpenFile, maxBytes: nat, done: nat -> bool, room: nat -> nat, ghost content: seq<byte>)
    returns (r: ReadResult)
    requires file.pos == 0 && file.regular && forall t :: room(t) > 0
    requires forall t :: file.world(t) == content && !done(t) && !file.fails(t)
    modifies file
    ensures r == if |content| <= maxBytes then Ok(content) else Err(OverBudget)
  {
    r := ReadBounded(file, maxBytes, done, room);
    assert Quiet(file, done, old(file.clock), file.clock + 1);
    assert r == Err(Grew) ==> |content| > maxBytes;
    assert r == Err(OverBudget) <==> |content| > maxBytes;
    assert r.Err? ==> !r.error.ContextDone? && !r.error.ReadFailed? && !r.error.NotRegular?;
    assert r.Err? ==> r.error in {OverBudget, Grew};
    if r.Ok? {
      ghost var moments :| WasThere(file.world, r.data, moments, old(file.clock), file.clock);
      SteadyContent(file.world, r.data, moments, old(file.clock), file.clock, content);
    }
  }

  // ---- the client's accumulator ----

  datatype Piece = Bytes(bytes: seq<byte>) | Broken

  datatype Accepted = Whole(bytes: seq<byte>) | TooMuch | Threw

  /** The pieces before the connection breaks, if it does. */
  function Arrived(body: seq<Piece>): seq<seq<byte>> {
    if body == [] || body[0].Broken? then [] else [body[0].bytes] + Arrived(body[1..])
  }

  /** The first n pieces all arrive and carry these bytes. */
  function Total(body: seq<Piece>, n: nat): nat
    requires n <= |body|
  {
    if n == 0 then 0 else Total(body, n - 1) + (if body[n - 1].Bytes? then |body[n - 1].bytes| else 0)
  }

  lemma {:induction false} TotalGrows(body: seq<Piece>, m: nat, n: nat)
    requires m <= n <= |body|
    ensures Total(body, m) <= Total(body, n)
    decreases n
  {
    if m < n {
      TotalGrows(body, m, n - 1);
    }
  }

  lemma {:induction false} FlattenLength(body: seq<Piece>)
    requires forall i :: 0 <= i < |body| ==> body[i].Bytes?
    ensures |Flatten(Arrived(body))| == Total(body, |body|)
  {
    ArrivedAll(body);
    FlattenPrefix(body, |body|);
    assert Arrived(body)[..|body|] == Arrived(body);
  }

  lemma {:induction false} FlattenPrefix(body: seq<Piece>, n: nat)
    requires n <= |body| && forall i :: 0 <= i < |body| ==> body[i].Bytes?
    requires |Arrived(body)| == |body| && forall i :: 0 <= i < |body| ==> Arrived(body)[i] == body[i].bytes
    ensures |Flatten(Arrived(body)[..n])| == Total(body, n)
  {
    if n > 0 {
      FlattenPrefix(body, n - 1);
      FlattenTake(Arrived(body), n - 1);
    }
  }

  lemma {:induction false} ArrivedAll(body: seq<Piece>)
    requires forall i :: 0 <= i < |body| ==> body[i].Bytes?
    ensures |Arrived(body)| == |body| && forall i :: 0 <= i < |body| ==> Arrived(body)[i] == body[i].bytes
  {
    if body != [] {
      ArrivedAll(body[1..]);
    }
  }

  /** Reading stops at the first piece that takes the total past the budget, so
      no more than the budget is ever kept; a body is accepted exactly when all
      of it fits. */
  method ReadAtMost(body: seq<Piece>, maxBytes: nat) returns (r: Accepted)
    ensures r.Whole? <==> (forall i :: 0 <= i < |body| ==> body[i].Bytes?) && Total(body, |body|) <= maxBytes
    ensures r.Whole? ==> r.bytes == Flatten(Arrived(body)) && |r.bytes| <= maxBytes
    ensures r.TooMuch? <==> exists n ::
              0 <= n <= |body| && Total(body, n) > maxBytes && forall i :: 0 <= i < n ==> body[i].Bytes?
  {
    var chunks: seq<seq<byte>> := [];
    var total := 0;
    for i := 0 to |body|
      invariant |chunks| == i && forall j :: 0 <= j < i ==> body[j].Bytes? && chunks[j] == body[j].bytes
      invariant total == Total(body, i) <= maxBytes
    {
      if body[i].Broken? {
        forall n | 0 <= n <= |body| && Total(body, n) > maxBytes ensures n > i {
          if n <= i { TotalGrows(body, n, i); }
        }
        return Threw;
      }
      total := total + |body[i].bytes|;
      if total > maxBytes {
        assert Total(body, i + 1) > maxBytes;
        TotalGrows(body, i + 1, |body|);
        return TooMuch;
      }
      chunks := chunks + [body[i].bytes];
    }
    ArrivedAll(body);
    FlattenLength(body);
    assert chunks == Arrived(body);
    forall n | 0 <= n <= |body| ensures Total(body, n) <= maxBytes {
      TotalGrows(body, n, |body|);
    }
    r := Whole(Flatten(chunks));
  }

  predicate Unbroken(body: seq<Piece>) {
    forall i :: 0 <= i < |body| ==> body[i].Bytes?
  }

  /** A network that cuts an answer anywhere, and may break off, but adds, drops
      and reorders nothing. */
  ghost predicate Delivers(network: seq<byte> -> seq<Piece>) {
    forall data :: Flatten(Arrived(network(data))) <= data
                   && (Unbroken(network(data)) ==> Flatten(Arrived(network(data))) == data)
  }

  /** End to end: whenever the caller gets bytes, however the network cuts the
      answer, they are the agent's: all that was read up to the end of the file,
      within the budget. */
  method ReadThrough(
    file: OpenFile, maxBytes: nat, done: nat -> bool, room: nat -> nat, network: seq<byte> -> seq<Piece>)
    returns (r: Option<seq<byte>>)
    requires file.pos == 0 && (forall t :: room(t) > 0) && Delivers(network)
    modifies file
    ensures r.Some? ==>
              |r.value| <= maxBytes
              && (exists moments :: WasThere(file.world, r.value, moments, old(file.clock), file.clock))
              && file.clock > old(file.clock) && |file.world(file.clock - 1)| <= |r.value|
    ensures r == None && file.regular && Quiet(file, done, old(file.clock), file.clock + 1)
            && (forall data :: Unbroken(network(data))) ==>
              exists t :: old(file.clock) <= t <= file.clock && |file.world(t)| > maxBytes
  {
    hide WasThere, Quiet, Flatten, Arrived, Total;
    var answer := ReadBounded(file, maxBytes, done, room);
    match answer
    case Err(e) =>
      assert e.OverBudget? ==> |file.world(old(file.clock))| > maxBytes;
      r := None;
    case Ok(data) =>
      var body := network(data);
      if Unbroken(body) {
        FlattenLength(body);
      }
      var accepted := ReadAtMost(body, maxBytes);
      r := if accepted.Whole? then Some(accepted.bytes) else None;
  }
}
