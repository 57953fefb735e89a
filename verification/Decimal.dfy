/** Decimal numbers as text: Go's `Itoa` and `Atoi`, and JSON integers. */
module Decimal {
  import opened Common

  const MAX_INT64: int := 0x7FFF_FFFF_FFFF_FFFF

  predicate IsDigit(c: char) { '0' <= c <= '9' }

  function Print(n: nat): (s: string)
    ensures s != "" && (forall i :: 0 <= i < |s| ==> IsDigit(s[i]))
    decreases n
  {
    var digit := [(('0' as int) + n % 10) as char];
    if n < 10 then digit else Print(n / 10) + digit
  }

  function PrintInt(n: int): (s: string)
    ensures s != "" && (IsDigit(s[0]) || s[0] == '-')
  {
    if n < 0 then "-" + Print(-n) else Print(n)
  }

  /** No number is printed with a zero in front. */
  lemma {:induction false} NoLeadingZero(n: nat)
    ensures n == 0 ==> Print(n) == "0"
    ensures n > 0 ==> Print(n)[0] != '0'
    decreases n
  {
    if n >= 10 {
      NoLeadingZero(n / 10);
      assert Print(n)[0] == Print(n / 10)[0];
    }
  }

  /** How many digits the text starts with. */
  function Span(s: string): (n: nat)
    ensures n <= |s|
    ensures forall i :: 0 <= i < n ==> IsDigit(s[i])
    ensures n < |s| ==> !IsDigit(s[n])
  {
    if s != "" && IsDigit(s[0]) then 1 + Span(s[1..]) else 0
  }

  function DigitValue(c: char): nat
    requires IsDigit(c)
  {
    c as int - '0' as int
  }

  function Value(digits: string): nat
    requires forall i :: 0 <= i < |digits| ==> IsDigit(digits[i])
  {
    if digits == "" then 0
    else 10 * Value(digits[..|digits| - 1]) + DigitValue(digits[|digits| - 1])
  }

  /** An integer at the start of the text, and what follows it. */
  function Parse(s: string): (r: Option<(int, string)>)
    ensures r.Some? ==> |r.value.1| < |s|
  {
    if s != "" && s[0] == '-' then
      var n := Span(s[1..]);
      if n == 0 then None else Some((0 - Value(s[1..][..n]) as int, s[1 + n..]))
    else
      var n := Span(s);
      if n == 0 then None else Some((Value(s[..n]), s[n..]))
  }

  predicate StopsDigits(rest: string) {
    rest == "" || !IsDigit(rest[0])
  }

  lemma {:induction false} ValueOfPrint(n: nat)
    ensures Value(Print(n)) == n
    decreases n
  {
    var s := Print(n);
    if n >= 10 {
      ValueOfPrint(n / 10);
      assert s[..|s| - 1] == Print(n / 10);
    } else {
      assert s[..|s| - 1] == "";
    }
  }

  lemma {:induction false} SpanIs(digits: string, rest: string)
    requires forall i :: 0 <= i < |digits| ==> IsDigit(digits[i])
    requires StopsDigits(rest)
    ensures Span(digits + rest) == |digits|
  {
    if digits == "" {
      assert digits + rest == rest;
    } else {
      assert (digits + rest)[1..] == digits[1..] + rest;
      SpanIs(digits[1..], rest);
    }
  }

  lemma {:induction false} DigitsRead(n: nat, rest: string)
    requires StopsDigits(rest)
    ensures var s, k := Print(n) + rest, |Print(n)|;
            Span(s) == k && s[..k] == Print(n) && s[k..] == rest && Value(s[..k]) == n
  {
    hide Print, Value, Span;
    ValueOfPrint(n);
    SpanIs(Print(n), rest);
    assert (Print(n) + rest)[..|Print(n)|] == Print(n);
  }

  lemma {:induction false} ParseMinus(t: string, k: nat)
    requires Span(t) == k > 0
    ensures Parse("-" + t) == Some((0 - Value(t[..k]) as int, t[k..]))
  {
    hide Span, Value;
    assert ("-" + t)[1..] == t && ("-" + t)[1 + k..] == t[k..];
  }

  lemma {:induction false} ParsePlain(t: string, k: nat)
    requires Span(t) == k > 0
    ensures Parse(t) == Some((Value(t[..k]), t[k..]))
  {
    hide Value;
    assert IsDigit(t[0]);
  }

  /** Printing is inverted whatever follows, as long as that is not a digit. */
  lemma {:induction false} ParsePrint(n: int, rest: string)
    requires StopsDigits(rest)
    ensures Parse(PrintInt(n) + rest) == Some((n, rest))
  {
    hide Print, Value, Span, StopsDigits, Parse;
    if n < 0 {
      DigitsRead(-n, rest);
      ParseMinus(Print(-n) + rest, |Print(-n)|);
      Regroup("-", Print(-n), rest);
    } else {
      DigitsRead(n, rest);
      ParsePlain(Print(n) + rest, |Print(n)|);
    }
  }

  /** More text after a number that has ended does not change it. */
  lemma {:induction false} ParseStable(s: string, more: string)
    requires Parse(s).Some? && Parse(s).value.1 != ""
    ensures Parse(s + more) == Some((Parse(s).value.0, Parse(s).value.1 + more))
  {
    var start := if s[0] == '-' then 1 else 0;
    var body := s[start..];
    var n := Span(body);
    assert body == body[..n] + body[n..];
    SpanIs(body[..n], body[n..] + more);
    assert (s + more)[start..] == body[..n] + (body[n..] + more);
    assert (s + more)[start..][..n] == body[..n];
    assert (s + more)[start + n..] == s[start + n..] + more;
  }

  /** strconv.ParseInt(s, 10, 64) */
  function ParseInt64(s: string): Option<int> {
    var t := if |s| > 1 && s[0] == '+' && IsDigit(s[1]) then s[1..] else s;
    match Parse(t)
    case Some((v, "")) => if -MAX_INT64 - 1 <= v <= MAX_INT64 then Some(v) else None
    case _ => None
  }

  /** It takes digits after at most one sign, of a number that fits, and nothing
      else. */
  lemma {:induction false} ParseInt64Exactly(s: string)
    ensures var digits := if s != "" && (s[0] == '+' || s[0] == '-') then s[1..] else s;
            if digits != "" && forall i :: 0 <= i < |digits| ==> IsDigit(digits[i]) then
              var v: int := if s[0] == '-' then 0 - Value(digits) as int else Value(digits);
              ParseInt64(s) == if -0x8000_0000_0000_0000 <= v <= 0x7FFF_FFFF_FFFF_FFFF then Some(v) else None
            else ParseInt64(s) == None
  {
    var digits := if s != "" && (s[0] == '+' || s[0] == '-') then s[1..] else s;
    if digits != "" && forall i :: 0 <= i < |digits| ==> IsDigit(digits[i]) {
      SpanIs(digits, "");
      assert digits + "" == digits && digits[..|digits|] == digits;
    } else {
      NotAllDigits(digits);
    }
  }

  lemma {:induction false} NotAllDigits(digits: string)
    requires digits == "" || exists i :: 0 <= i < |digits| && !IsDigit(digits[i])
    ensures Span(digits) == 0 || Span(digits) < |digits|
  {
  }

  /** What is printed is read back exactly when it is an int64. */
  lemma {:induction false} ParseInt64Print(n: int)
    ensures ParseInt64(PrintInt(n)) == if -0x8000_0000_0000_0000 <= n <= 0x7FFF_FFFF_FFFF_FFFF then Some(n) else None
  {
    ParsePrint(n, "");
    assert PrintInt(n) + "" == PrintInt(n);
  }
}
