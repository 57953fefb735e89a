/**
 * Flat JSON objects: printed as Go's encoder prints a struct of numbers,
 * strings and booleans, and parsed by the grammar of that fragment (no
 * whitespace, no nesting, integers only).
 */
module Json {
  import opened Common
  import Decimal

  datatype Scalar = Num(n: int) | Str(s: string) | Bool(b: bool)

  type Fields = seq<(string, Scalar)>

  function HexChar(v: int): char
    requires 0 <= v < 16
  {
    if v < 10 then ('0' as int + v) as char else ('a' as int + v - 10) as char
  }

  function HexValue(c: char): (v: Option<int>)
    ensures v.Some? ==> 0 <= v.value < 16
  {
    if '0' <= c <= '9' then Some(c as int - '0' as int)
    else if 'a' <= c <= 'f' then Some(c as int - 'a' as int + 10)
    else if 'A' <= c <= 'F' then Some(c as int - 'A' as int + 10)
    else None
  }

  /** Go escapes what JSON must have escaped, and `<`, `>`, `&`, U+2028 and
      U+2029 as well. */
  function Escape(c: char): string {
    var v := c as int;
    if c == '"' then "\\\""
    else if c == '\\' then "\\\\"
    else if v == 8 then "\\b"
    else if v == 12 then "\\f"
    else if v == 10 then "\\n"
    else if v == 13 then "\\r"
    else if v == 9 then "\\t"
    else if v < 0x20 || c == '<' || c == '>' || c == '&' || v == 0x2028 || v == 0x2029 then
      ['\\', 'u', HexChar(v / 4096), HexChar(v / 256 % 16), HexChar(v / 16 % 16), HexChar(v % 16)]
    else [c]
  }

  function EscapeAll(s: string): string {
    if s == "" then "" else Escape(s[0]) + EscapeAll(s[1..])
  }

  function Quote(s: string): string {
    "\"" + EscapeAll(s) + "\""
  }

  /** One character of a string body, and what follows it. Escaped surrogates
      are outside the fragment. */
  function Unescape(s: string): (r: Option<(char, string)>)
    requires s != ""
    ensures r.Some? ==> |r.value.1| < |s|
  {
    if s[0] != '\\' then
      if s[0] as int < 0x20 then None else Some((s[0], s[1..]))
    else if |s| < 2 then None
    else if s[1] == '"' || s[1] == '\\' || s[1] == '/' then Some((s[1], s[2..]))
    else if s[1] == 'b' then Some((8 as char, s[2..]))
    else if s[1] == 'f' then Some((12 as char, s[2..]))
    else if s[1] == 'n' then Some((10 as char, s[2..]))
    else if s[1] == 'r' then Some((13 as char, s[2..]))
    else if s[1] == 't' then Some((9 as char, s[2..]))
    else if s[1] == 'u' && |s| >= 6 then
      match (HexValue(s[2]), HexValue(s[3]), HexValue(s[4]), HexValue(s[5]))
      case (Some(a), Some(b), Some(c), Some(d)) =>
        var v := a * 4096 + b * 256 + c * 16 + d;
        if 0xD800 <= v < 0xE000 then None else Some((v as char, s[6..]))
      case _ => None
    else None
  }

  /** A string body up to its closing quote, and what follows that. */
  function ParseBody(s: string): (r: Option<(string, string)>)
    ensures r.Some? ==> |r.value.1| < |s|
    decreases |s|
  {
    if s == "" then None
    else if s[0] == '"' then Some(("", s[1..]))
    else match Unescape(s)
      case None => None
      case Some((c, rest)) =>
        match ParseBody(rest)
        case None => None
        case Some((text, last)) => Some(([c] + text, last))
  }

  function ParseString(s: string): (r: Option<(string, string)>)
    ensures r.Some? ==> |r.value.1| < |s|
  {
    if s != "" && s[0] == '"' then ParseBody(s[1..]) else None
  }

  const TRUE := "true"
  const FALSE := "false"

  function PrintScalar(v: Scalar): string {
    match v
    case Num(n) => Decimal.PrintInt(n)
    case Str(s) => Quote(s)
    case Bool(b) => if b then TRUE else FALSE
  }

  function ParseScalar(s: string): (r: Option<(Scalar, string)>)
    ensures r.Some? ==> |r.value.1| < |s|
  {
    if s == "" then None
    else if s[0] == '"' then
      match ParseString(s)
      case None => None
      case Some((text, rest)) => Some((Str(text), rest))
    else if |s| >= 4 && s[..4] == TRUE then Some((Bool(true), s[4..]))
    else if |s| >= 5 && s[..5] == FALSE then Some((Bool(false), s[5..]))
    else
      match Decimal.Parse(s)
      case None => None
      case Some((n, rest)) => Some((Num(n), rest))
  }

  function PrintMember(field: (string, Scalar)): string {
    Quote(field.0) + ":" + PrintScalar(field.1)
  }

  /** Members separated by commas, up to and with the closing brace. */
  function PrintMembers(fields: Fields): string
    requires fields != []
  {
    PrintMember(fields[0]) + if |fields| == 1 then "}" else "," + PrintMembers(fields[1..])
  }

  function PrintObject(fields: Fields): string {
    "{" + if fields == [] then "}" else PrintMembers(fields)
  }

  /** One `"key":value`, and what follows it, which is never nothing. */
  function ParseMember(s: string): (r: Option<((string, Scalar), string)>)
    ensures r.Some? ==> 0 < |r.value.1| < |s|
  {
    match ParseString(s)
    case None => None
    case Some((key, rest)) =>
      if rest == "" || rest[0] != ':' then None
      else match ParseScalar(rest[1..])
        case None => None
        case Some((value, end)) => if end == "" then None else Some(((key, value), end))
  }

  function ParseMembers(s: string): (r: Option<(Fields, string)>)
    ensures r.Some? ==> |r.value.1| < |s|
    decreases |s|
  {
    match ParseMember(s)
    case None => None
    case Some((field, end)) =>
      if end[0] == '}' then Some(([field], end[1..]))
      else if end[0] == ',' then
        match ParseMembers(end[1..])
        case None => None
        case Some((more, rest)) => Some(([field] + more, rest))
      else None
  }

  /** The whole of the text as one object. */
  function ParseObject(s: string): Option<Fields> {
    if s == "{}" then Some([])
    else if s == "" || s[0] != '{' then None
    else match ParseMembers(s[1..])
      case Some((fields, "")) => Some(fields)
      case _ => None
  }

  lemma {:induction false} HexInverse(v: int)
    requires 0 <= v < 16
    ensures HexValue(HexChar(v)) == Some(v)
  {
  }

  lemma {:induction false} UnescapeEscape(c: char, rest: string)
    ensures Escape(c) != "" && Escape(c)[0] != '"'
    ensures Unescape(Escape(c) + rest) == Some((c, rest))
  {
    EscapeLengths(c);
    hide *;
    if |Escape(c)| == 6 {
      SixUnescape(c, rest);
    } else if |Escape(c)| == 1 {
      OneUnescapes(c, rest);
    } else {
      TwoUnescape(c, rest);
    }
  }

  lemma {:induction false} EscapeLengths(c: char)
    ensures |Escape(c)| in {1, 2, 6}
  {
  }

  lemma {:induction false} SixUnescape(c: char, rest: string)
    requires |Escape(c)| == 6
    ensures Escape(c)[0] != '"' && Unescape(Escape(c) + rest) == Some((c, rest))
  {
    hide Unescape, HexChar;
    var v := c as int;
    HexUnescapes(v / 4096, v / 256 % 16, v / 16 % 16, v % 16, rest);
  }

  lemma {:induction false} OneUnescapes(c: char, rest: string)
    requires |Escape(c)| == 1
    ensures Escape(c)[0] != '"' && Unescape(Escape(c) + rest) == Some((c, rest))
  {
    hide HexChar, HexValue;
    assert Escape(c) == [c];
    assert ([c] + rest)[1..] == rest;
  }

  lemma {:induction false} TwoUnescape(c: char, rest: string)
    requires |Escape(c)| == 2
    ensures Escape(c)[0] != '"' && Unescape(Escape(c) + rest) == Some((c, rest))
  {
    hide HexChar, HexValue;
    var e := Escape(c);
    assert (e + rest)[1] == e[1] && (e + rest)[2..] == rest;
  }

  lemma {:induction false} HexUnescapes(a: int, b: int, c: int, d: int, rest: string)
    requires a == 0 || a == 2
    requires 0 <= b < 16 && 0 <= c < 16 && 0 <= d < 16
    ensures Unescape(['\\', 'u', HexChar(a), HexChar(b), HexChar(c), HexChar(d)] + rest)
            == Some(((a * 4096 + b * 256 + c * 16 + d) as char, rest))
  {
    hide HexChar, HexValue;
    var s := ['\\', 'u', HexChar(a), HexChar(b), HexChar(c), HexChar(d)] + rest;
    HexInverse(a);
    HexInverse(b);
    HexInverse(c);
    HexInverse(d);
    assert s[6..] == rest;
  }

  lemma {:induction false} ParseBodyNext(s: string, after: string)
    requires s != "" && s[0] != '"' && Unescape(s).Some? && Unescape(s).value.1 == after && ParseBody(after).Some?
    ensures ParseBody(s) == Some(([Unescape(s).value.0] + ParseBody(after).value.0, ParseBody(after).value.1))
  {
    hide Unescape;
  }

  lemma {:induction false} ParseBodyEscape(text: string, rest: string)
    ensures ParseBody(EscapeAll(text) + "\"" + rest) == Some((text, rest))
  {
    if text == "" {
      assert EscapeAll(text) + "\"" + rest == "\"" + rest;
      assert ("\"" + rest)[1..] == rest;
    } else {
      hide Escape, Unescape;
      var after := EscapeAll(text[1..]) + "\"" + rest;
      assert EscapeAll(text) + "\"" + rest == Escape(text[0]) + after;
      UnescapeEscape(text[0], after);
      ParseBodyEscape(text[1..], rest);
      ParseBodyNext(Escape(text[0]) + after, after);
      hide ParseBody, EscapeAll;
      assert [text[0]] + text[1..] == text;
    }
  }

  lemma {:induction false} ParseQuote(text: string, rest: string)
    ensures ParseString(Quote(text) + rest) == Some((text, rest))
  {
    hide ParseBody, EscapeAll;
    ParseBodyEscape(text, rest);
    assert (Quote(text) + rest)[0] == '"';
    assert (Quote(text) + rest)[1..] == EscapeAll(text) + "\"" + rest;
  }

  lemma {:induction false} ParsePrintScalar(v: Scalar, rest: string)
    requires rest != "" && !Decimal.IsDigit(rest[0])
    ensures ParseScalar(PrintScalar(v) + rest) == Some((v, rest))
  {
    match v
    case Num(n) => ParsePrintNumber(n, rest);
    case Str(text) =>
      hide ParseBody, EscapeAll, Decimal.Parse;
      ParseQuote(text, rest);
    case Bool(b) =>
      hide Decimal.Parse, ParseString;
      var s := PrintScalar(v) + rest;
      assert s[|PrintScalar(v)|..] == rest && s[..|PrintScalar(v)|] == PrintScalar(v);
      assert !b ==> s[..4][0] == 'f';
  }

  lemma {:induction false} ParsePrintNumber(n: int, rest: string)
    requires rest != "" && !Decimal.IsDigit(rest[0])
    ensures ParseScalar(Decimal.PrintInt(n) + rest) == Some((Num(n), rest))
  {
    var s := Decimal.PrintInt(n) + rest;
    assert s[0] == Decimal.PrintInt(n)[0];
    Decimal.ParsePrint(n, rest);
    hide Decimal.Parse, ParseString;
    assert |s| >= 4 ==> s[..4][0] == s[0];
    assert |s| >= 5 ==> s[..5][0] == s[0];
  }

  lemma {:induction false} ParsePrintMember(field: (string, Scalar), end: string)
    requires end != "" && !Decimal.IsDigit(end[0])
    ensures ParseMember(PrintMember(field) + end) == Some((field, end))
  {
    var after := ":" + (PrintScalar(field.1) + end);
    Regroup(Quote(field.0) + ":", PrintScalar(field.1), end);
    Regroup(Quote(field.0), ":", PrintScalar(field.1) + end);
    ParseQuote(field.0, after);
    assert after[1..] == PrintScalar(field.1) + end;
    ParsePrintScalar(field.1, end);
  }

  lemma {:induction false} ParsePrintMembers(fields: Fields, rest: string)
    requires fields != []
    ensures ParseMembers(PrintMembers(fields) + rest) == Some((fields, rest))
  {
    hide ParseMember, PrintMember;
    if |fields| == 1 {
      Regroup(PrintMember(fields[0]), "}", rest);
      ParsePrintMember(fields[0], "}" + rest);
      assert ("}" + rest)[1..] == rest && fields == [fields[0]];
    } else {
      var more := PrintMembers(fields[1..]);
      Regroup(PrintMember(fields[0]), "," + more, rest);
      Regroup(",", more, rest);
      ParsePrintMember(fields[0], "," + (more + rest));
      assert ("," + (more + rest))[1..] == more + rest;
      ParsePrintMembers(fields[1..], rest);
      assert [fields[0]] + fields[1..] == fields;
    }
  }

  /** A character that Go's encoder never prints as it is: one that would end or
      break the string, or that HTML would see. */
  predicate Unsafe(c: char) {
    c as int < 0x20 || c == '<' || c == '>' || c == '&' || c as int == 0x2028 || c as int == 0x2029
  }

  /** No text is printed with such a character, and its quotes are escaped. */
  lemma {:induction false} QuotedIsSafe(text: string)
    ensures forall i :: 0 <= i < |EscapeAll(text)| ==>
              !Unsafe(EscapeAll(text)[i])
              && (EscapeAll(text)[i] == '"' ==> i > 0 && EscapeAll(text)[i - 1] == '\\')
  {
    if text != "" {
      var e, rest := Escape(text[0]), EscapeAll(text[1..]);
      EscapeIsSafe(text[0]);
      QuotedIsSafe(text[1..]);
      assert EscapeAll(text) == e + rest;
      hide Escape, EscapeAll;
      forall i | 0 <= i < |e + rest|
        ensures !Unsafe((e + rest)[i]) && ((e + rest)[i] == '"' ==> i > 0 && (e + rest)[i - 1] == '\\') {
        if i >= |e| {
          assert (e + rest)[i] == rest[i - |e|];
        }
      }
    }
  }

  lemma {:induction false} EscapeIsSafe(c: char)
    ensures Escape(c) != ""
    ensures forall i :: 0 <= i < |Escape(c)| ==>
              !Unsafe(Escape(c)[i]) && (Escape(c)[i] == '"' ==> i > 0 && Escape(c)[i - 1] == '\\')
  {
    forall v | 0 <= v < 16 ensures !Unsafe(HexChar(v)) && HexChar(v) != '"' {
      HexIsSafe(v);
    }
    hide HexChar;
  }

  lemma {:induction false} HexIsSafe(v: int)
    requires 0 <= v < 16
    ensures !Unsafe(HexChar(v)) && HexChar(v) != '"'
  {
  }

  /** The short escapes, of which each character has its own. */
  lemma {:induction false} ShortEscapes()
    ensures Escape('\n') == "\\n" && Escape('\r') == "\\r" && Escape('\t') == "\\t"
    ensures Escape(8 as char) == "\\b" && Escape(12 as char) == "\\f"
    ensures Escape('<') == "\\u003c" && Escape('>') == "\\u003e" && Escape('&') == "\\u0026"
  {
  }

  /** JSON.parse refuses a string without its quote, or with a control character
      as it is; hexadecimal digits it takes in either case. */
  lemma {:induction false} StringsStrict(s: string, c: char)
    ensures s == "" || s[0] != '"' ==> ParseString(s) == None
    ensures s != "" && s[0] as int < 0x20 ==> Unescape(s) == None
    ensures 'A' <= c <= 'F' ==> HexValue(c) == HexValue((c as int + 32) as char) == Some(c as int - 55)
  {
  }

  /** Every flat object reads back as printed. */
  lemma {:induction false} ParsePrintObject(fields: Fields)
    ensures ParseObject(PrintObject(fields)) == Some(fields)
  {
    if fields != [] {
      ParsePrintMembers(fields, "");
      assert PrintObject(fields)[1..] == PrintMembers(fields) + "";
      assert PrintObject(fields)[1] == '"';
    }
  }

  lemma {:induction false} UnescapeStable(s: string, more: string)
    requires s != "" && Unescape(s).Some?
    ensures Unescape(s + more) == Some((Unescape(s).value.0, Unescape(s).value.1 + more))
  {
    var n := |s| - |Unescape(s).value.1|;
    assert (s + more)[n..] == s[n..] + more;
  }

  lemma {:induction false} ParseBodyStable(s: string, more: string)
    requires ParseBody(s).Some?
    ensures ParseBody(s + more) == Some((ParseBody(s).value.0, ParseBody(s).value.1 + more))
    decreases |s|
  {
    if s[0] == '"' {
      assert (s + more)[1..] == s[1..] + more;
    } else {
      UnescapeStable(s, more);
      ParseBodyStable(Unescape(s).value.1, more);
    }
  }

  lemma {:induction false} ParseStringStable(s: string, more: string)
    requires ParseString(s).Some?
    ensures ParseString(s + more) == Some((ParseString(s).value.0, ParseString(s).value.1 + more))
  {
    assert (s + more)[1..] == s[1..] + more;
    ParseBodyStable(s[1..], more);
  }

  lemma {:induction false} ParseScalarStable(s: string, more: string)
    requires ParseScalar(s).Some? && ParseScalar(s).value.1 != ""
    ensures ParseScalar(s + more) == Some((ParseScalar(s).value.0, ParseScalar(s).value.1 + more))
  {
    var n := |s| - |ParseScalar(s).value.1|;
    assert (s + more)[n..] == s[n..] + more;
    assert |s| >= 4 ==> (s + more)[..4] == s[..4];
    assert |s| >= 5 ==> (s + more)[..5] == s[..5];
    if s[0] == '"' {
      ParseStringStable(s, more);
    } else if !((|s| >= 4 && s[..4] == TRUE) || (|s| >= 5 && s[..5] == FALSE)) {
      Decimal.ParseStable(s, more);
      assert s[0] == '-' || Decimal.IsDigit(s[0]);
      assert |s + more| >= 4 ==> (s + more)[..4][0] == s[0];
      assert |s + more| >= 5 ==> (s + more)[..5][0] == s[0];
    }
  }

  lemma {:induction false} ParseMemberStable(s: string, more: string)
    requires ParseMember(s).Some?
    ensures ParseMember(s + more) == Some((ParseMember(s).value.0, ParseMember(s).value.1 + more))
  {
    ParseStringStable(s, more);
    var rest := ParseString(s).value.1;
    assert (rest + more)[1..] == rest[1..] + more;
    ParseScalarStable(rest[1..], more);
  }

  lemma {:induction false} ParseMembersStable(s: string, more: string)
    requires ParseMembers(s).Some?
    ensures ParseMembers(s + more) == Some((ParseMembers(s).value.0, ParseMembers(s).value.1 + more))
    decreases |s|
  {
    ParseMemberStable(s, more);
    var end := ParseMember(s).value.1;
    assert (end + more)[1..] == end[1..] + more;
    if end[0] == ',' {
      ParseMembersStable(end[1..], more);
    }
  }

  lemma {:induction false} CutMembersFail(fields: Fields, cut: string, more: string)
    requires fields != [] && cut + more == PrintMembers(fields) && more != ""
    ensures ParseMembers(cut).Some? ==> ParseMembers(cut).value.1 != ""
  {
    hide ParseMembers, PrintMembers;
    ParsePrintMembers(fields, "");
    assert PrintMembers(fields) + "" == cut + more;
    if ParseMembers(cut).Some? {
      ParseMembersStable(cut, more);
    }
  }

  lemma {:induction false} OpensWithQuote(fields: Fields)
    requires fields != []
    ensures PrintMembers(fields) != "" && PrintMembers(fields)[0] == '"'
  {
  }

  /** A printed object cut anywhere short of its end does not parse. */
  lemma {:induction false} CutObjectFails(fields: Fields, cut: string, more: string)
    requires cut + more == PrintObject(fields) && more != ""
    ensures ParseObject(cut) == None
  {
    var s := PrintObject(fields);
    if fields == [] {
      assert |cut| < 2;
      hide ParseMember;
      if cut != "" {
        assert cut[1..] == "";
        NothingParses();
      }
    } else if cut != "" {
      hide ParseMembers, PrintMembers;
      assert cut[1..] + more == s[1..] == PrintMembers(fields);
      CutMembersFail(fields, cut[1..], more);
      OpensWithQuote(fields);
      assert |cut| >= 2 ==> cut[1] == s[1];
    }
  }

  lemma {:induction false} NothingParses()
    ensures ParseMembers("") == None
  {
  }
}
