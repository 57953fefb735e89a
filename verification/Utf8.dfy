/**
 * UTF-8, section 3 of RFC 3629, as `TextDecoder` reads it a chunk at a time:
 * incomplete characters wait for the next chunk, malformed bytes become
 * U+FFFD, and one leading byte order mark is dropped.
 */
module Utf8 {
  import opened Common

  /** Scalar values beyond ASCII: what a longer sequence may stand for. */
  predicate Scalars(lo: int, hi: int) {
    0x80 <= lo <= hi < 0x11_0000 && (hi < 0xD800 || 0xE000 <= lo)
  }

  /** What the decoder holds between bytes: nothing, or a character still
      wanting `need` continuation bytes, the next one within lower..upper. */
  datatype Pending = Ready | Want(high: int, need: int, lower: int, upper: int)
  {
    predicate Valid() {
      Want? ==>
        && 0x80 <= lower <= upper <= 0xBF
        && 1 <= need <= 3
        && Scalars(Least(high * 64 + lower - 0x80, need - 1), Greatest(high * 64 + upper - 0x80, need - 1))
    }
  }

  function Least(high: int, more: int): int {
    if more == 0 then high else if more == 1 then high * 64 else high * 4096
  }

  function Greatest(high: int, more: int): int {
    if more == 0 then high else if more == 1 then high * 64 + 63 else high * 4096 + 4095
  }

  type pending = p: Pending | p.Valid() witness Ready

  const REPLACEMENT: char := 0xFFFD as char
  const BOM: char := 0xFEFF as char

  /** One byte with no character under way. */
  function Begin(b: byte): (pending, string) {
    if b < 0x80 then (Ready, [b as char])
    else if 0xC2 <= b <= 0xDF then (Want(b - 0xC0, 1, 0x80, 0xBF), "")
    else if 0xE0 <= b <= 0xEF then
      (Want(b - 0xE0, 2, if b == 0xE0 then 0xA0 else 0x80, if b == 0xED then 0x9F else 0xBF), "")
    else if 0xF0 <= b <= 0xF4 then
      (Want(b - 0xF0, 3, if b == 0xF0 then 0x90 else 0x80, if b == 0xF4 then 0x8F else 0xBF), "")
    else (Ready, [REPLACEMENT])
  }

  /** One byte in any state. A byte that cannot continue the character under
      way replaces it, and is read again as the start of the next. */
  function Step(p: pending, b: byte): (pending, string) {
    match p
    case Ready => Begin(b)
    case Want(high, need, lower, upper) =>
      if !(lower <= b <= upper) then
        var (next, text) := Begin(b);
        (next, [REPLACEMENT] + text)
      else if need == 1 then (Ready, [(high * 64 + b - 0x80) as char])
      else (Want(high * 64 + b - 0x80, need - 1, 0x80, 0xBF), "")
  }

  /** The decoder between chunks: the character under way, and whether any
      character has been seen, after which a byte order mark is an ordinary one. */
  datatype State = State(pending: pending, started: bool)

  const Initial: State := State(Ready, false)
  const Steady: State := State(Ready, true)

  /** A byte order mark that comes first is not part of the text. */
  function DropBom(started: bool, text: string): string {
    if !started && text != "" && text[0] == BOM then text[1..] else text
  }

  function StepState(s: State, b: byte): (State, string) {
    var (next, text) := Step(s.pending, b);
    (State(next, s.started || text != ""), DropBom(s.started, text))
  }

  function Feed(s: State, bytes: seq<byte>): (State, string)
    decreases bytes
  {
    if bytes == [] then (s, "")
    else
      var (next, text) := StepState(s, bytes[0]);
      var (last, more) := Feed(next, bytes[1..]);
      (last, text + more)
  }

  /** The text of a whole stream. Bytes of a character that never completes are
      not part of it: the decoder is never flushed. */
  function Decode(bytes: seq<byte>): string {
    Feed(Initial, bytes).1
  }

  lemma {:induction false} FeedAppend(s: State, a: seq<byte>, b: seq<byte>)
    decreases a
    ensures Feed(s, a + b) == (Feed(Feed(s, a).0, b).0, Feed(s, a).1 + Feed(Feed(s, a).0, b).1)
  {
    var rest := Feed(Feed(s, a).0, b).1;
    if a == [] {
      assert a + b == b && "" + rest == rest;
    } else {
      assert (a + b)[1..] == a[1..] + b;
      var (next, text) := StepState(s, a[0]);
      FeedAppend(next, a[1..], b);
      assert text + (Feed(next, a[1..]).1 + rest) == text + Feed(next, a[1..]).1 + rest;
    }
  }

  lemma {:induction false} FeedSnoc(s: State, a: seq<byte>, b: byte)
    ensures Feed(s, a + [b]) ==
            (StepState(Feed(s, a).0, b).0, Feed(s, a).1 + StepState(Feed(s, a).0, b).1)
  {
    FeedAppend(s, a, [b]);
    assert [b][1..] == [];
    assert StepState(Feed(s, a).0, b).1 + "" == StepState(Feed(s, a).0, b).1;
  }

  /** The decoder object: one `decode(chunk, {stream: true})` a chunk. */
  class TextDecoder {
    var state: State

    constructor ()
      ensures state == Initial
    {
      state := Initial;
    }

    method Decode(chunk: seq<byte>) returns (text: string)
      modifies this
      ensures (state, text) == Feed(old(state), chunk)
    {
      text := "";
      for i := 0 to |chunk|
        invariant (state, text) == Feed(old(state), chunk[..i])
      {
        assert chunk[..i + 1] == chunk[..i] + [chunk[i]];
        FeedSnoc(old(state), chunk[..i], chunk[i]);
        var (next, out) := StepState(state, chunk[i]);
        state := next;
        text := text + out;
      }
      assert chunk[..|chunk|] == chunk;
    }
  }

  function EncodeChar(c: char): seq<byte> {
    var v := c as int;
    if v < 0x80 then [v]
    else if v < 0x800 then [0xC0 + v / 64, 0x80 + v % 64]
    else if v < 0x1_0000 then [0xE0 + v / 4096, 0x80 + v / 64 % 64, 0x80 + v % 64]
    else [0xF0 + v / 0x4_0000, 0x80 + v / 4096 % 64, 0x80 + v / 64 % 64, 0x80 + v % 64]
  }

  function Encode(text: string): seq<byte> {
    if text == "" then [] else EncodeChar(text[0]) + Encode(text[1..])
  }

  lemma {:induction false} EncodeAppend(a: string, b: string)
    ensures Encode(a + b) == Encode(a) + Encode(b)
  {
    if a == "" {
      assert a + b == b;
    } else {
      assert (a + b)[1..] == a[1..] + b;
      EncodeAppend(a[1..], b);
    }
  }

  lemma {:induction false} FeedOne(s: State, b: byte)
    ensures Feed(s, [b]) == StepState(s, b)
  {
    assert [b][1..] == [];
    assert StepState(s, b).1 + "" == StepState(s, b).1;
  }

  lemma {:induction false} FeedSilent(s: State, b: byte, next: State, rest: seq<byte>)
    requires StepState(s, b) == (next, "")
    ensures Feed(s, [b] + rest) == Feed(next, rest)
  {
    assert ([b] + rest)[1..] == rest;
    assert "" + Feed(next, rest).1 == Feed(next, rest).1;
  }

  lemma {:induction false} FeedChar2(started: bool, c: char)
    requires 0x80 <= c as int < 0x800
    ensures Feed(State(Ready, started), EncodeChar(c)) == (Steady, DropBom(started, [c]))
  {
    var v, s, e := c as int, State(Ready, started), EncodeChar(c);
    var s1 := State(Want(v / 64, 1, 0x80, 0xBF), started);
    assert e == [e[0]] + [e[1]];
    FeedSilent(s, e[0], s1, [e[1]]);
    FeedOne(s1, e[1]);
  }

  lemma {:induction false} FeedChar3(started: bool, c: char)
    requires 0x800 <= c as int < 0x1_0000
    ensures Feed(State(Ready, started), EncodeChar(c)) == (Steady, DropBom(started, [c]))
  {
    var v, s, e := c as int, State(Ready, started), EncodeChar(c);
    assert v / 4096 * 64 + v / 64 % 64 == v / 64;
    var s1, s2 := StepState(s, e[0]).0, State(Want(v / 64, 1, 0x80, 0xBF), started);
    assert e == [e[0]] + ([e[1]] + [e[2]]);
    FeedSilent(s, e[0], s1, [e[1]] + [e[2]]);
    FeedSilent(s1, e[1], s2, [e[2]]);
    FeedOne(s2, e[2]);
  }

  lemma {:induction false} FeedChar4(started: bool, c: char)
    requires 0x1_0000 <= c as int
    ensures Feed(State(Ready, started), EncodeChar(c)) == (Steady, DropBom(started, [c]))
  {
    var v, s, e := c as int, State(Ready, started), EncodeChar(c);
    var s1, s2, s3 := StepState(s, e[0]).0, State(Want(v / 4096, 2, 0x80, 0xBF), started),
      State(Want(v / 64, 1, 0x80, 0xBF), started);
    FirstSteps4(started, c);
    LastStep4(started, c);
    hide StepState, EncodeChar;
    assert e == [e[0]] + ([e[1]] + ([e[2]] + [e[3]]));
    FeedSilent(s, e[0], s1, [e[1]] + ([e[2]] + [e[3]]));
    FeedSilent(s1, e[1], s2, [e[2]] + [e[3]]);
    FeedSilent(s2, e[2], s3, [e[3]]);
    FeedOne(s3, e[3]);
  }

  lemma {:induction false} FirstSteps4(started: bool, c: char)
    requires 0x1_0000 <= c as int
    ensures var v, e := c as int, EncodeChar(c);
            var s1 := StepState(State(Ready, started), e[0]);
            && |e| == 4 && s1.1 == ""
            && StepState(s1.0, e[1]) == (State(Want(v / 4096, 2, 0x80, 0xBF), started), "")
  {
    var v := c as int;
    assert v / 0x4_0000 * 64 + v / 4096 % 64 == v / 4096;
  }

  lemma {:induction false} LastStep4(started: bool, c: char)
    requires 0x1_0000 <= c as int
    ensures var v, e := c as int, EncodeChar(c);
            var s2, s3 := State(Want(v / 4096, 2, 0x80, 0xBF), started), State(Want(v / 64, 1, 0x80, 0xBF), started);
            && |e| == 4 && StepState(s2, e[2]) == (s3, "")
            && StepState(s3, e[3]) == (Steady, DropBom(started, [c]))
  {
    var v := c as int;
    assert v / 4096 * 64 + v / 64 % 64 == v / 64;
  }

  /** The machine reads one encoded character back from any resting state. */
  lemma {:induction false} FeedChar(started: bool, c: char)
    ensures Feed(State(Ready, started), EncodeChar(c)) == (Steady, DropBom(started, [c]))
  {
    var v := c as int;
    if v < 0x80 {
      FeedOne(State(Ready, started), v);
    } else if v < 0x800 {
      FeedChar2(started, c);
    } else if v < 0x1_0000 {
      FeedChar3(started, c);
    } else {
      FeedChar4(started, c);
    }
  }

  lemma {:induction false} FeedText(text: string)
    ensures Feed(Steady, Encode(text)) == (Steady, text)
  {
    if text != "" {
      assert [text[0]] + text[1..] == text;
      FeedChar(true, text[0]);
      FeedAppend(Steady, EncodeChar(text[0]), Encode(text[1..]));
      FeedText(text[1..]);
    }
  }

  /** Decoding inverts encoding, but for one leading byte order mark. */
  lemma {:induction false} DecodeEncode(text: string)
    ensures Decode(Encode(text)) == if text != "" && text[0] == BOM then text[1..] else text
  {
    if text != "" {
      FeedChar(false, text[0]);
      FeedAppend(Initial, EncodeChar(text[0]), Encode(text[1..]));
      FeedText(text[1..]);
      assert [text[0]] + text[1..] == text;
    }
  }

  /** The text of a whole buffer: a mark at its start is kept, and a character
      that its end cuts off is replaced. */
  function ToText(bytes: seq<byte>): string {
    var (last, text) := Feed(Steady, bytes);
    if last.pending.Want? then text + [REPLACEMENT] else text
  }

  lemma {:induction false} ToTextEncode(text: string)
    ensures ToText(Encode(text)) == text
  {
    FeedText(text);
  }

  const NEWLINE: byte := 10

  lemma {:induction false} StepNewline(s: State, b: byte)
    ensures b == NEWLINE ==>
              var (next, text) := StepState(s, b);
              next == Steady && text != "" && text[|text| - 1] == '\n' && '\n' !in text[..|text| - 1]
    ensures b != NEWLINE ==> '\n' !in StepState(s, b).1
  {
  }

  /**
   * A newline byte is never part of a longer character, whatever surrounds it:
   * the text up to it ends in a newline, and what follows decodes on its own.
   */
  lemma {:induction false} NewlineResynchronises(s: State, a: seq<byte>, b: seq<byte>)
    ensures var line := Feed(s, a + [NEWLINE]);
            && line.0 == Steady
            && line.1 != "" && line.1[|line.1| - 1] == '\n'
            && Feed(s, a + [NEWLINE] + b).1 == line.1 + Feed(Steady, b).1
  {
    FeedSnoc(s, a, NEWLINE);
    StepNewline(Feed(s, a).0, NEWLINE);
    var before := Feed(s, a).1;
    var (next, text) := StepState(Feed(s, a).0, NEWLINE);
    var line := Feed(s, a + [NEWLINE]);
    assert line == (next, before + text);
    assert line.1[|before| + |text| - 1] == text[|text| - 1];
    FeedAppend(s, a + [NEWLINE], b);
  }

  /** And no other byte makes one. */
  lemma {:induction false} NewlinesOnlyFromNewlines(s: State, bytes: seq<byte>)
    decreases bytes
    requires NEWLINE !in bytes
    ensures '\n' !in Feed(s, bytes).1
  {
    if bytes != [] {
      StepNewline(s, bytes[0]);
      NewlinesOnlyFromNewlines(StepState(s, bytes[0]).0, bytes[1..]);
    }
  }
}
