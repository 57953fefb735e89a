/**
 * What a stream's consumer is given of a process's stdout, from the pipe to the
 * enqueued bytes: the handler, the network, the line reader and the pulls.
 */
module StreamedOutput {
  import opened Common
  import opened Ndjson
  import opened ExecEvents
  import opened ExecServer
  import Base64
  import Channel
  import Stream

  /** The lines of a response as `stream` sees them; a last one that does not
      parse comes after those that do. */
  function Items(views: seq<AgentEvent>, ok: bool): Stream.Response {
    if views == [] then if ok then [] else [Stream.Unparsable]
    else [Stream.Event(views[0])] + Items(views[1..], ok)
  }

  lemma {:induction false} ItemsAt(views: seq<AgentEvent>, ok: bool)
    ensures |Items(views, ok)| == |views| + (if ok then 0 else 1)
    ensures forall i :: 0 <= i < |views| ==> Items(views, ok)[i] == Stream.Event(views[i])
    ensures !ok ==> Items(views, ok)[|views|] == Stream.Unparsable
  {
    if views != [] {
      ItemsAt(views[1..], ok);
    }
  }

  /** No event that reports an error carries output. */
  predicate Plain(events: seq<ExecEvent>) {
    forall i :: 0 <= i < |events| ==> events[i].error != "" ==> events[i].stdout == []
  }

  lemma {:induction false} StdoutOf(e: ExecEvent)
    requires e.error != "" ==> e.stdout == []
    ensures Flatten(Stream.Stdout(Stream.Event(View(e)))) == CarriedBy(e, Out)
  {
    Base64.RoundTrip(e.stdout);
    hide Base64.Decode, Base64.Encode;
    var chunks := Stream.Stdout(Stream.Event(View(e)));
    if chunks != [] {
      assert chunks == [e.stdout] && e.stdout + Flatten(chunks[1..]) == e.stdout;
    }
  }

  /** The chunks of the first n lines are the stdout of as many events. */
  lemma {:induction false} ChunksCarry(events: seq<ExecEvent>, ok: bool, n: nat)
    requires Plain(events) && n <= |Items(Views(events), ok)|
    ensures Flatten(Stream.Chunks(Items(Views(events), ok)[..n])) == Carried(events[..Min(n, |events|)], Out)
    decreases n
  {
    hide Stream.Stdout, Stream.Chunks, CarriedBy, Carried, Items, Views, View, Flatten, Plain;
    var r := Items(Views(events), ok);
    ItemsAt(Views(events), ok);
    Channel.ViewsAt(events);
    if n == 0 {
      NothingCarried(r, events);
    } else {
      ChunksCarry(events, ok, n - 1);
      Stream.ChunksNext(r, n - 1);
      FlattenAppend(Stream.Chunks(r[..n - 1]), Stream.Stdout(r[n - 1]));
      if n <= |events| {
        var e := events[n - 1];
        PlainAt(events, n - 1);
        StdoutOf(e);
        assert r[n - 1] == Stream.Event(View(e));
        assert events[..n] == events[..n - 1] + [e];
        CarriedSnoc(events[..n - 1], e, Out);
      } else {
        NoStdout();
        assert Carried(events[..|events|], Out) + [] == Carried(events[..|events|], Out);
      }
    }
  }

  lemma {:induction false} NothingCarried(r: Stream.Response, events: seq<ExecEvent>)
    ensures Flatten(Stream.Chunks(r[..0])) == Carried(events[..0], Out)
  {
    assert r[..0] == [] && events[..0] == [];
  }

  lemma {:induction false} PlainAt(events: seq<ExecEvent>, i: nat)
    requires Plain(events) && i < |events|
    ensures events[i].error != "" ==> events[i].stdout == []
  {
  }

  lemma {:induction false} NoStdout()
    ensures Flatten(Stream.Stdout(Stream.Unparsable)) == []
  {
  }

  lemma {:induction false} CarriedPrefix(events: seq<ExecEvent>, k: nat)
    requires k <= |events|
    ensures Carried(events[..k], Out) <= Carried(events, Out)
  {
    if k < |events| {
      CarriedPrefix(events[..|events| - 1], k);
      assert events[..|events| - 1][..k] == events[..k];
    } else {
      assert events[..k] == events;
    }
  }

  /** Whatever has reached the body is a prefix of the lines of events that carry
      no more than the process wrote. */
  lemma {:induction false} BodyCarries(s: State, pid: int) returns (events: seq<ExecEvent>, more: seq<byte>)
    requires Inv(s, pid)
    ensures s.wire + more == LinesBytes(events) && Plain(events) && Carried(events, Out) <= s.out.written
  {
    hide LinesBytes, Carried;
    match s.lock
    case None =>
      events, more := s.sent, [];
      assert s.wire + [] == s.wire;
      SentIsPlain(s, pid);
      CarriedSoFar(s, pid);
    case Some(who) =>
      var e := s.WriterOf(who).event;
      events, more := s.sent + [e], s.WriterOf(who).rest;
      SentIsPlain(s, pid);
      WritingIsPlain(s, pid, who);
      CarriedSoFar(s, pid);
      CarriedSnoc(s.sent, e, Out);
      if who == Out {
        OutInHand(s, pid);
      } else {
        assert Carried(s.sent, Out) + [] == Carried(s.sent, Out);
      }
  }

  lemma {:induction false} CarriedSoFar(s: State, pid: int)
    requires Inv(s, pid)
    ensures Carried(s.sent, Out) <= s.out.written
  {
    hide WireInv, ErrInv, Shape, Carried, IsOutput;
    assert s.out.written[..s.out.taken] <= s.out.written;
  }

  lemma {:induction false} OutInHand(s: State, pid: int)
    requires Inv(s, pid) && s.outReader.Writing?
    ensures Carried(s.sent, Out) + CarriedBy(s.outReader.event, Out) <= s.out.written
  {
    hide WireInv, ErrInv, Shape, Carried, IsOutput;
    assert s.out.written[..s.out.taken] <= s.out.written;
  }

  lemma {:induction false} SentIsPlain(s: State, pid: int)
    requires Inv(s, pid)
    ensures Plain(s.sent)
  {
    hide WireInv, OutInv, ErrInv;
    if s.phase == Closing && s.main == Stopped {
      var n := |s.sent| - 1;
      assert forall i :: 0 <= i < n ==> s.sent[..n][i] == s.sent[i];
    }
  }

  lemma {:induction false} WritingIsPlain(s: State, pid: int, who: Who)
    requires Inv(s, pid) && s.lock == Some(who)
    ensures s.WriterOf(who).Writing? && s.wire + s.WriterOf(who).rest == LinesBytes(s.sent + [s.WriterOf(who).event])
    ensures var e := s.WriterOf(who).event; (e.error != "" ==> e.stdout == []) && (who != Out ==> e.stdout == [])
  {
    hide LinesBytes, Carried, PidThenOutput;
  }

  /**
   * End to end: in every run of the handler, for every prefix of its body that
   * the network delivers and every run of the stream over it, what the consumer
   * has been given is a prefix of what the process wrote to its stdout; and when
   * the whole of a finished response arrived and was pulled to its end, the
   * stream has closed and that is all that was read of it, which is all that was
   * written unless a read failed.
   */
  lemma {:induction false} StreamedFaithfully(
    pid: int, actions: seq<Action>, received: seq<byte>, lost: seq<byte>, timer: bool, pulls: seq<Stream.Action>)
    requires ValidRun(Init(pid), actions) && received + lost == After(Init(pid), actions).wire
    requires var (views, ok) := StreamValues(received, ParseEvent);
             Stream.ValidRun(Stream.Init(timer), pulls, Items(views, ok))
    ensures var (views, ok) := StreamValues(received, ParseEvent);
            var s, t := After(Init(pid), actions), Stream.After(Stream.Init(timer), pulls, Items(views, ok));
            && Flatten(t.enqueued) <= WrittenBy(actions, Out)
            && (s.main == Stopped && lost == [] && Stream.Ends in pulls && Stream.Cancel !in pulls ==>
                  && t.output == Stream.Closed && Flatten(t.enqueued) == Received(s.out)
                  && (ReadFails(Out) !in actions ==> Received(s.out) == WrittenBy(actions, Out)))
  {
    hide *;
    InitInv(pid);
    RunKeepsInv(Init(pid), pid, actions);
    var s := After(Init(pid), actions);
    var (views, ok) := StreamValues(received, ParseEvent);
    Stream.FaithfulPrefix(timer, pulls, Items(views, ok));
    var t := Stream.After(Stream.Init(timer), pulls, Items(views, ok));
    var events, more := BodyCarries(s, pid);
    Regroup(received, lost, more);
    var k := Channel.ReadPrefix(events, received, lost + more);
    PlainPrefix(events, k);
    ChunksCarry(events[..k], ok, t.shown);
    var n := Min(t.shown, k);
    MinIs(t.shown, k);
    assert events[..k][..n] == events[..n];
    CarriedPrefix(events, n);
    PipesOfRun(pid, actions);
    if s.main == Stopped && lost == [] && Stream.Ends in pulls && Stream.Cancel !in pulls {
      WholeStream(s, pid, received, views, ok, t.enqueued);
      EndedRun(pid, actions);
    }
  }

  lemma {:induction false} MinIs(a: nat, b: nat)
    ensures 0 <= Min(a, b) <= b
  {
  }

  lemma {:induction false} PlainPrefix(events: seq<ExecEvent>, k: nat)
    requires Plain(events) && k <= |events|
    ensures Plain(events[..k])
  {
  }

  lemma {:induction false} WholeStream(
    s: State, pid: int, received: seq<byte>, views: seq<AgentEvent>, ok: bool, enqueued: seq<seq<byte>>)
    requires Inv(s, pid) && s.main == Stopped && received == s.wire && (views, ok) == StreamValues(received, ParseEvent)
    requires enqueued == Stream.Chunks(Items(views, ok))
    ensures Flatten(enqueued) == Carried(s.sent, Out) == Received(s.out)
  {
    hide Inv, StreamValues, LinesBytes, Carried, Stream.Chunks;
    EndedState(s, pid);
    assert s.wire + [] == s.wire;
    var k := Channel.ReadPrefix(s.sent, received, []);
    assert s.sent[..k] == s.sent && Views(s.sent) == views && ok;
    SentIsPlain(s, pid);
    var r := Items(views, ok);
    Channel.ViewsAt(s.sent);
    ItemsAt(views, ok);
    ChunksCarry(s.sent, ok, |r|);
    assert r[..|r|] == r && s.sent[..|s.sent|] == s.sent;
  }
}
