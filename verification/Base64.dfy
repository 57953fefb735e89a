/**
 * Base64, section 4 of RFC 4648: Go's `json` prints a byte slice with the
 * padded standard alphabet, and the client reads it back with Node's lenient
 * decoder, which takes either alphabet, skips anything else and stops at the
 * first pad.
 */
module Base64 {
  import opened Common
  import Text

  function SextetChar(v: int): char
    requires 0 <= v < 64
  {
    if v < 26 then ('A' as int + v) as char
    else if v < 52 then ('a' as int + v - 26) as char
    else if v < 62 then ('0' as int + v - 52) as char
    else if v == 62 then '+'
    else '/'
  }

  function SextetValue(c: char): (v: Option<int>)
    ensures v.Some? ==> 0 <= v.value < 64
  {
    if 'A' <= c <= 'Z' then Some(c as int - 'A' as int)
    else if 'a' <= c <= 'z' then Some(c as int - 'a' as int + 26)
    else if '0' <= c <= '9' then Some(c as int - '0' as int + 52)
    else if c == '+' || c == '-' then Some(62)
    else if c == '/' || c == '_' then Some(63)
    else None
  }

  function Encode(bs: seq<byte>): string {
    if |bs| == 0 then ""
    else if |bs| == 1 then
      [SextetChar(bs[0] / 4), SextetChar(bs[0] % 4 * 16), '=', '=']
    else if |bs| == 2 then
      [SextetChar(bs[0] / 4), SextetChar(bs[0] % 4 * 16 + bs[1] / 16), SextetChar(bs[1] % 16 * 4), '=']
    else
      [SextetChar(bs[0] / 4), SextetChar(bs[0] % 4 * 16 + bs[1] / 16),
       SextetChar(bs[1] % 16 * 4 + bs[2] / 64), SextetChar(bs[2] % 64)] + Encode(bs[3..])
  }

  type sextet = x: int | 0 <= x < 64

  /** The six-bit values a text carries, up to its first pad. */
  function Sextets(s: string): seq<sextet> {
    if s == "" || s[0] == '=' then []
    else match SextetValue(s[0])
      case Some(v) => [v] + Sextets(s[1..])
      case None => Sextets(s[1..])
  }

  function Byte0(a: sextet, b: sextet): byte { a as int * 4 + b as int / 16 }

  function Byte1(b: sextet, c: sextet): byte { b as int % 16 * 16 + c as int / 4 }

  function Byte2(c: sextet, d: sextet): byte { c as int % 4 * 64 + d as int }

  function Unpack(q: seq<sextet>): seq<byte> {
    if |q| < 2 then []
    else if |q| == 2 then [Byte0(q[0], q[1])]
    else if |q| == 3 then [Byte0(q[0], q[1]), Byte1(q[1], q[2])]
    else [Byte0(q[0], q[1]), Byte1(q[1], q[2]), Byte2(q[2], q[3])] + Unpack(q[4..])
  }

  function Decode(s: string): seq<byte> {
    Unpack(Sextets(s))
  }

  /** A character that neither ends nor escapes a JSON string. */
  predicate Plain(c: char) {
    'A' <= c <= 'Z' || 'a' <= c <= 'z' || '0' <= c <= '9' || c == '+' || c == '/' || c == '='
  }

  lemma {:induction false} SextetInverse(v: int)
    requires 0 <= v < 64
    ensures SextetValue(SextetChar(v)) == Some(v)
    ensures Plain(SextetChar(v)) && SextetChar(v) != '='
  {
  }

  /** The alphabet is that of table 1 of RFC 4648, in its order; the decoder takes
      the two characters of table 2 as well. */
  lemma {:induction false} AlphabetExactly(v: int)
    requires 0 <= v < 64
    ensures var alphabet := Text.UPPER_CASE + Text.LOWER_CASE + Text.DIGITS + "+/";
            |alphabet| == 64 && SextetChar(v) == alphabet[v]
    ensures SextetValue('-') == Some(62) && SextetValue('_') == Some(63) && SextetValue('=') == None
  {
    Text.Alphabets();
    hide Text.UPPER_CASE, Text.LOWER_CASE, Text.DIGITS;
  }

  /** The decoder passes over anything else, and what follows the first pad. */
  lemma {:induction false} DecodesLeniently(before: string, c: char, after: string)
    requires SextetValue(c) == None
    ensures c != '=' ==> Decode(before + [c] + after) == Decode(before + after)
    ensures c == '=' ==> Decode(before + [c] + after) == Decode(before)
  {
    SextetsSkip(before, c, after);
  }

  lemma {:induction false} SextetsSkip(before: string, c: char, after: string)
    requires SextetValue(c) == None
    ensures Sextets(before + [c] + after) == if c == '=' then Sextets(before) else Sextets(before + after)
  {
    var s := before + [c] + after;
    if before == "" {
      assert s == [c] + after && s[1..] == after && before + after == after;
    } else {
      assert s[1..] == before[1..] + [c] + after && (before + after)[1..] == before[1..] + after;
      hide SextetValue;
      SextetsSkip(before[1..], c, after);
    }
  }

  lemma {:induction false} SextetsCons(v: int, rest: string)
    requires 0 <= v < 64
    ensures Sextets([SextetChar(v)] + rest) == [v] + Sextets(rest)
  {
    SextetInverse(v);
    assert ([SextetChar(v)] + rest)[1..] == rest;
  }

  lemma {:induction false} SextetsQuad(a: int, b: int, c: int, d: int, rest: string)
    requires 0 <= a < 64 && 0 <= b < 64 && 0 <= c < 64 && 0 <= d < 64
    ensures Sextets([SextetChar(a), SextetChar(b), SextetChar(c), SextetChar(d)] + rest)
            == [a, b, c, d] + Sextets(rest)
  {
    var s1, s2, s3 := [SextetChar(d)] + rest, [SextetChar(c)] + ([SextetChar(d)] + rest),
      [SextetChar(b)] + ([SextetChar(c)] + ([SextetChar(d)] + rest));
    SextetsCons(d, rest);
    SextetsCons(c, s1);
    SextetsCons(b, s2);
    SextetsCons(a, s3);
    assert [SextetChar(a), SextetChar(b), SextetChar(c), SextetChar(d)] + rest == [SextetChar(a)] + s3;
  }

  lemma {:induction false} BitsRegroup(x: byte, y: byte, z: byte)
    ensures Byte0(x / 4, x % 4 * 16 + y / 16) == x
    ensures Byte1(x % 4 * 16 + y / 16, y % 16 * 4 + z / 64) == y
    ensures Byte2(y % 16 * 4 + z / 64, z % 64) == z
  {
  }

  lemma {:induction false} RoundTripOne(x: byte)
    ensures Decode(Encode([x])) == [x]
  {
    BitsRegroup(x, 0, 0);
    TailSextets(x / 4, x % 4 * 16, "==");
    assert Encode([x]) == [SextetChar(x / 4), SextetChar(x % 4 * 16)] + "==";
  }

  lemma {:induction false} RoundTripTwo(x: byte, y: byte)
    ensures Decode(Encode([x, y])) == [x, y]
  {
    BitsRegroup(x, y, 0);
    var a, b, c := x / 4, x % 4 * 16 + y / 16, y % 16 * 4;
    TailSextets(b, c, "=");
    SextetsCons(a, [SextetChar(b), SextetChar(c)] + "=");
    assert Encode([x, y]) == [SextetChar(a)] + ([SextetChar(b), SextetChar(c)] + "=");
  }

  lemma {:induction false} RoundTripThree(x: byte, y: byte, z: byte, rest: seq<byte>)
    requires Decode(Encode(rest)) == rest
    ensures Decode(Encode([x, y, z] + rest)) == [x, y, z] + rest
  {
    hide Sextets, Unpack, SextetChar, SextetValue;
    var bs := [x, y, z] + rest;
    assert bs[3..] == rest && bs[0] == x && bs[1] == y && bs[2] == z;
    BitsRegroup(x, y, z);
    var a, b, c, d := x / 4, x % 4 * 16 + y / 16, y % 16 * 4 + z / 64, z % 64;
    SextetsQuad(a, b, c, d, Encode(rest));
    UnpackQuad(a, b, c, d, Sextets(Encode(rest)));
  }

  /** The lenient decoder inverts the encoder on every byte sequence. */
  lemma {:induction false} RoundTrip(bs: seq<byte>)
    ensures Decode(Encode(bs)) == bs
  {
    if |bs| == 0 {
    } else if |bs| == 1 {
      RoundTripOne(bs[0]);
      assert bs == [bs[0]];
    } else if |bs| == 2 {
      RoundTripTwo(bs[0], bs[1]);
      assert bs == [bs[0], bs[1]];
    } else {
      RoundTrip(bs[3..]);
      RoundTripThree(bs[0], bs[1], bs[2], bs[3..]);
      assert bs == [bs[0], bs[1], bs[2]] + bs[3..];
    }
  }

  lemma {:induction false} TailSextets(a: int, b: int, pad: string)
    requires 0 <= a < 64 && 0 <= b < 64 && pad != "" && pad[0] == '='
    ensures Sextets([SextetChar(a), SextetChar(b)] + pad) == [a, b]
  {
    SextetsCons(b, pad);
    SextetsCons(a, [SextetChar(b)] + pad);
    assert [SextetChar(a), SextetChar(b)] + pad == [SextetChar(a)] + ([SextetChar(b)] + pad);
  }

  lemma {:induction false} UnpackQuad(a: sextet, b: sextet, c: sextet, d: sextet, rest: seq<sextet>)
    ensures Unpack([a, b, c, d] + rest) == [Byte0(a, b), Byte1(b, c), Byte2(c, d)] + Unpack(rest)
  {
    var q := [a, b, c, d] + rest;
    assert q[4..] == rest;
  }

  /** Four characters for every three bytes or part of three, all of them plain. */
  lemma {:induction false} EncodedShape(bs: seq<byte>)
    ensures |Encode(bs)| == 4 * ((|bs| + 2) / 3)
    ensures forall i :: 0 <= i < |Encode(bs)| ==> Plain(Encode(bs)[i])
  {
    hide SextetChar, Plain;
    forall v: sextet ensures Plain(SextetChar(v)) {
      SextetPlain(v);
    }
    PadPlain();
    if |bs| >= 3 {
      EncodedShape(bs[3..]);
    }
  }

  lemma {:induction false} SextetPlain(v: sextet)
    ensures Plain(SextetChar(v))
  {
  }

  lemma {:induction false} PadPlain()
    ensures Plain('=')
  {
  }
}
