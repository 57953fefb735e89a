/**
 * What a decoder is to make of malformed bytes, said by the encoding alone: the
 * longest start of a character that is cut short counts as one U+FFFD, and so
 * does a byte that starts none.
 */
module Utf8Reference {
  import opened Common
  import opened Utf8

  /** Some character's encoding goes on after these bytes. */
  ghost predicate Starts(p: seq<byte>) {
    p != [] && exists c: char :: StartsOf(p, c)
  }

  predicate StartsOf(p: seq<byte>, c: char) {
    |p| < |EncodeChar(c)| && p == EncodeChar(c)[..|p|]
  }

  ghost predicate Codes(p: seq<byte>) { exists c: char :: p == EncodeChar(c) }

  /** One byte after the start of a character, or after none. */
  ghost function Read(p: seq<byte>, b: byte): (seq<byte>, string)
    decreases |p|
  {
    if Starts(p + [b]) then (p + [b], "")
    else if Codes(p + [b]) then
      var c: char :| p + [b] == EncodeChar(c);
      ([], [c])
    else if p == [] then ([], [0xFFFD as char])
    else
      var (next, text) := Read([], b);
      (next, [0xFFFD as char] + text)
  }

  ghost function ReadAll(p: seq<byte>, bytes: seq<byte>): (seq<byte>, string)
    decreases bytes
  {
    if bytes == [] then (p, "")
    else
      var (next, text) := Read(p, bytes[0]);
      var (last, more) := ReadAll(next, bytes[1..]);
      (last, text + more)
  }

  // ---- the decoder's state as the bytes it stands for ----

  /** The bytes of a character under way. */
  function BytesOf(p: Pending): seq<byte>
    requires Proper(p)
  {
    match p
    case Ready => []
    case Want(high, need, _, _) =>
      if need == 1 then
        if high < 32 then [0xC0 + high]
        else if high < 1024 then [0xE0 + high / 64, 0x80 + high % 64]
        else [0xF0 + high / 4096, 0x80 + high / 64 % 64, 0x80 + high % 64]
      else if need == 2 then
        if high < 16 then [0xE0 + high] else [0xF0 + high / 64, 0x80 + high % 64]
      else [0xF0 + high]
  }

  /** The states that bytes lead to. */
  predicate Proper(p: Pending) {
    match p
    case Ready => true
    case Want(high, need, lower, upper) =>
      || (need == 1 && 2 <= high < 0x4400 && !(864 <= high < 896) && lower == 0x80 && upper == 0xBF)
      || (need == 2 && 0 <= high < 16
          && lower == (if high == 0 then 0xA0 else 0x80) && upper == (if high == 13 then 0x9F else 0xBF))
      || (need == 2 && 16 <= high < 272 && lower == 0x80 && upper == 0xBF)
      || (need == 3 && 0 <= high < 5
          && lower == (if high == 0 then 0x90 else 0x80) && upper == (if high == 4 then 0x8F else 0xBF))
  }

  /** A state is followed by the bytes in its range, and by no others. */
  predicate Takes(p: Pending, b: byte) {
    match p
    case Ready => b < 0x80 || 0xC2 <= b <= 0xF4
    case Want(_, _, lower, upper) => lower <= b <= upper
  }

  lemma {:induction false} TakenByte(p: pending, b: byte)
    requires Proper(p) && Takes(p, b)
    ensures var (next, text) := Step(p, b);
            && Proper(next)
            && (next.Want? ==> text == "" && BytesOf(next) == BytesOf(p) + [b])
            && (next.Ready? ==> exists c: char :: text == [c] && EncodeChar(c) == BytesOf(p) + [b])
  {
    var (next, text) := Step(p, b);
    if p.Ready? {
      if b < 0x80 {
        assert EncodeChar(b as char) == [b];
      }
    } else if p.need == 1 {
      LastByte(p, b);
    } else {
      MiddleByte(p, b);
    }
  }

  lemma {:induction false} LastByte(p: pending, b: byte)
    requires Proper(p) && p.Want? && p.need == 1 && Takes(p, b)
    ensures 0x80 <= p.high * 64 + b - 0x80 < 0x11_0000
    ensures !(0xD800 <= p.high * 64 + b - 0x80 < 0xE000)
    ensures EncodeChar((p.high * 64 + b - 0x80) as char) == BytesOf(p) + [b]
  {
    var h, v := p.high, p.high * 64 + b - 0x80;
    assert v / 64 == h && v % 64 == b - 0x80;
    assert v / 4096 == h / 64 && v / 0x4_0000 == h / 4096;
    assert v / 4096 % 64 == h / 64 % 64;
  }

  lemma {:induction false} MiddleByte(p: pending, b: byte)
    requires Proper(p) && p.Want? && p.need > 1 && Takes(p, b)
    ensures var next := Step(p, b).0;
            Step(p, b).1 == "" && next.Want? && Proper(next) && BytesOf(next) == BytesOf(p) + [b]
  {
    var h := p.high * 64 + b - 0x80;
    SixMoreBits(p.high, b - 0x80);
    assert Step(p, b) == (Want(h, p.need - 1, 0x80, 0xBF), "");
    if p.need == 3 {
      assert 16 <= h < 272 && BytesOf(p) + [b] == [0xF0 + p.high, b];
    } else if p.high < 16 {
      assert 32 <= h < 1024 && BytesOf(p) + [b] == [0xE0 + p.high, b];
    } else {
      assert 1024 <= h < 0x4400 && BytesOf(p) + [b] == [0xF0 + p.high / 64, 0x80 + p.high % 64, b];
    }
  }

  lemma {:induction false} SixMoreBits(high: int, low: int)
    requires 0 <= high && 0 <= low < 64
    ensures var h := high * 64 + low; h / 64 == high && h % 64 == low && h / 4096 == high / 64
  {
  }

  lemma {:induction false} UnderWay(p: pending)
    requires Proper(p) && p.Want?
    ensures Starts(BytesOf(p))
    decreases p.need
  {
    var b: byte := p.lower;
    if p.need == 1 {
      LastByte(p, b);
      var c := (p.high * 64 + b - 0x80) as char;
      assert EncodeChar(c)[..|BytesOf(p)|] == BytesOf(p);
      assert StartsOf(BytesOf(p), c);
    } else {
      MiddleByte(p, b);
      var next := Step(p, b).0;
      UnderWay(next);
      Shorter(BytesOf(p), b);
    }
  }

  lemma {:induction false} Shorter(p: seq<byte>, b: byte)
    requires p != [] && Starts(p + [b])
    ensures Starts(p)
  {
    var c: char :| StartsOf(p + [b], c);
    assert EncodeChar(c)[..|p|] == EncodeChar(c)[..|p + [b]|][..|p|] == (p + [b])[..|p|] == p;
    assert StartsOf(p, c);
  }

  lemma {:induction false} NotTaken(p: pending, b: byte)
    requires Proper(p) && !Takes(p, b)
    ensures !Starts(BytesOf(p) + [b]) && !Codes(BytesOf(p) + [b])
  {
    hide Proper, Takes, EncodeChar, BytesOf;
    var q := BytesOf(p) + [b];
    forall c: char ensures !StartsOf(q, c) && q != EncodeChar(c) {
      if |q| <= |EncodeChar(c)| && q == EncodeChar(c)[..|q|] {
        PrefixTaken(p, b, c);
      }
      assert EncodeChar(c)[..|EncodeChar(c)|] == EncodeChar(c);
    }
  }

  lemma {:induction false} PrefixTaken(p: pending, b: byte, c: char)
    requires Proper(p) && |BytesOf(p)| < |EncodeChar(c)|
    requires BytesOf(p) + [b] == EncodeChar(c)[..|BytesOf(p)| + 1]
    ensures Takes(p, b)
  {
    var q, e := BytesOf(p) + [b], EncodeChar(c);
    assert forall i :: 0 <= i < |q| ==> q[i] == e[i];
    var n := |BytesOf(p)|;
    assert e[n] == b && forall i :: 0 <= i < n ==> e[i] == BytesOf(p)[i];
    if n == 0 {
      FirstTaken(p, c);
    } else if n == 1 {
      SecondTaken(p, c);
    } else {
      LaterTaken(p, c, n);
    }
  }

  lemma {:induction false} FirstTaken(p: pending, c: char)
    requires Proper(p) && BytesOf(p) == []
    ensures Takes(p, EncodeChar(c)[0])
  {
  }

  lemma {:induction false} SecondTaken(p: pending, c: char)
    requires Proper(p) && |BytesOf(p)| == 1 && |EncodeChar(c)| > 1 && BytesOf(p)[0] == EncodeChar(c)[0]
    ensures Takes(p, EncodeChar(c)[1])
  {
    var v := c as int;
    if v < 0x800 {
      assert EncodeChar(c)[0] < 0xE0;
    } else if v < 0x1_0000 {
      var h := v / 4096;
      ThreeByteRange(v, h);
      assert p.need == 2 && p.high == h;
    } else {
      var h := v / 0x4_0000;
      FourByteRange(v, h);
      assert p.need == 3 && p.high == h;
    }
  }

  lemma {:induction false} ThreeByteRange(v: int, h: int)
    requires 0x800 <= v < 0x1_0000 && !(0xD800 <= v < 0xE000) && h == v / 4096
    ensures 0 <= h < 16 && 0 <= v / 64 % 64 < 64 && (h == 0 ==> v / 64 % 64 >= 32) && (h == 13 ==> v / 64 % 64 < 32)
  {
    assert v / 64 == h * 64 + v / 64 % 64;
  }

  lemma {:induction false} FourByteRange(v: int, h: int)
    requires 0x1_0000 <= v < 0x11_0000 && h == v / 0x4_0000
    ensures 0 <= h < 5 && 0 <= v / 4096 % 64 < 64 && (h == 0 ==> v / 4096 % 64 >= 16) && (h == 4 ==> v / 4096 % 64 < 16)
  {
    assert v / 4096 == h * 64 + v / 4096 % 64;
  }

  /** Past its second byte any continuation byte goes on with a character. */
  lemma {:induction false} LaterTaken(p: pending, c: char, n: nat)
    requires Proper(p) && |BytesOf(p)| == n && 2 <= n < |EncodeChar(c)|
    ensures Takes(p, EncodeChar(c)[n])
  {
  }

  // ---- the decoder reads as it is to ----

  lemma {:induction false} SameCode(c: char, d: char)
    requires EncodeChar(c) == EncodeChar(d)
    ensures c == d
  {
    FeedChar(true, c);
    FeedChar(true, d);
    assert [c] == [d];
  }

  lemma {:induction false} StepReads(p: pending, b: byte)
    requires Proper(p)
    ensures var (next, text) := Step(p, b);
            Proper(next) && Read(BytesOf(p), b) == (BytesOf(next), text)
    decreases if p.Ready? then 0 else 1
  {
    hide Proper, Takes, EncodeChar, Starts, Codes;
    var (next, text) := Step(p, b);
    if Takes(p, b) {
      TakenByte(p, b);
      if next.Want? {
        UnderWay(next);
      } else {
        var c: char :| text == [c] && EncodeChar(c) == BytesOf(p) + [b];
        Coded(BytesOf(p) + [b], c);
      }
    } else {
      NotTaken(p, b);
      Refused(p, b);
      if p.Want? {
        ReadyIsProper();
        StepReads(Ready, b);
      }
    }
  }

  lemma {:induction false} ReadyIsProper()
    ensures Proper(Ready) && BytesOf(Ready) == []
  {
  }

  lemma {:induction false} Refused(p: pending, b: byte)
    requires Proper(p) && !Takes(p, b)
    ensures p.Ready? ==> Step(p, b) == (Ready, [REPLACEMENT])
    ensures p.Want? ==> Step(p, b) == (Step(Ready, b).0, [REPLACEMENT] + Step(Ready, b).1) && BytesOf(p) != []
  {
  }

  /** The bytes of a character start no other. */
  lemma {:induction false} Coded(q: seq<byte>, c: char)
    requires q == EncodeChar(c)
    ensures Codes(q) && !Starts(q)
    ensures forall d: char :: q == EncodeChar(d) ==> d == c
  {
    forall d: char | q == EncodeChar(d) ensures d == c {
      SameCode(c, d);
    }
    forall d: char ensures !StartsOf(q, d) {
      if StartsOf(q, d) {
        SameLength(c, d);
      }
    }
  }

  /** The first byte tells how many there are. */
  lemma {:induction false} SameLength(c: char, d: char)
    requires EncodeChar(c)[0] == EncodeChar(d)[0]
    ensures |EncodeChar(c)| == |EncodeChar(d)|
  {
  }

  lemma {:induction false} FeedReads(p: pending, bytes: seq<byte>)
    requires Proper(p)
    ensures var (last, text) := Feed(State(p, true), bytes);
            Proper(last.pending) && last.started && ReadAll(BytesOf(p), bytes) == (BytesOf(last.pending), text)
    decreases bytes
  {
    hide Proper, BytesOf, Read, Step;
    if bytes != [] {
      StepReads(p, bytes[0]);
      assert StepState(State(p, true), bytes[0]) == (State(Step(p, bytes[0]).0, true), Step(p, bytes[0]).1);
      FeedReads(Step(p, bytes[0]).0, bytes[1..]);
    }
  }

  /** Whatever the bytes, a whole buffer decodes to what the encoding alone
      makes of them, and a start that is left over to one more U+FFFD. */
  lemma {:induction false} ToTextReads(bytes: seq<byte>)
    ensures var (over, text) := ReadAll([], bytes);
            ToText(bytes) == if over == [] then text else text + [0xFFFD as char]
  {
    hide Proper, Feed, ReadAll;
    ReadyIsProper();
    FeedReads(Ready, bytes);
    LeftOver(Feed(Steady, bytes).0.pending);
  }

  lemma {:induction false} LeftOver(p: pending)
    requires Proper(p)
    ensures BytesOf(p) == [] <==> p.Ready?
  {
  }

  /** And so does a stream, but for its one leading byte order mark, which is
      dropped, and a start that is left over, which is never flushed. */
  lemma {:induction false} DecodeReads(bytes: seq<byte>)
    ensures var text := ReadAll([], bytes).1;
            Decode(bytes) == if text != "" && text[0] == 0xFEFF as char then text[1..] else text
  {
    hide Feed, ReadAll;
    ReadyIsProper();
    FeedReads(Ready, bytes);
    MarkDropped(Ready, bytes);
  }

  /** A decoder that has seen nothing yields the same text without its mark. */
  lemma {:induction false} MarkDropped(p: pending, bytes: seq<byte>)
    ensures Feed(State(p, false), bytes).1 == DropBom(false, Feed(State(p, true), bytes).1)
    decreases bytes
  {
    hide Step;
    if bytes != [] {
      var (next, text) := Step(p, bytes[0]);
      if text == "" {
        MarkDropped(next, bytes[1..]);
        assert "" + Feed(State(next, false), bytes[1..]).1 == Feed(State(next, false), bytes[1..]).1;
        assert "" + Feed(State(next, true), bytes[1..]).1 == Feed(State(next, true), bytes[1..]).1;
      } else {
        var more := Feed(State(next, true), bytes[1..]).1;
        assert text[0] == BOM ==> (text + more)[1..] == text[1..] + more;
      }
    }
  }
}
