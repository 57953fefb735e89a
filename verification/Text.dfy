/** Strings as JavaScript and Go cut, trim and join them. */
module Text {
  import opened Common

  /** White space and line terminators, as `String.prototype.trim` has them. */
  predicate IsSpace(c: char) {
    var v := c as int;
    9 <= v <= 13 || v == 0x20 || v == 0xA0 || v == 0x1680 || 0x2000 <= v <= 0x200A
    || v == 0x2028 || v == 0x2029 || v == 0x202F || v == 0x205F || v == 0x3000 || v == 0xFEFF
  }

  function TrimStart(s: string): string {
    if s != "" && IsSpace(s[0]) then TrimStart(s[1..]) else s
  }

  function TrimEnd(s: string): string {
    if s != "" && IsSpace(s[|s| - 1]) then TrimEnd(s[..|s| - 1]) else s
  }

  function Trim(s: string): string {
    TrimEnd(TrimStart(s))
  }

  /** Where `c` first occurs, or -1. */
  function IndexOf(s: string, c: char): (i: int)
    ensures -1 <= i < |s|
    ensures i >= 0 ==> s[i] == c && c !in s[..i]
    ensures i == -1 ==> c !in s
  {
    if s == "" then -1
    else if s[0] == c then 0
    else
      var rest := IndexOf(s[1..], c);
      assert s == [s[0]] + s[1..];
      if rest == -1 then -1 else assert s[..rest + 1] == [s[0]] + s[1..][..rest]; rest + 1
  }

  /** The parts between the separators: `s.split(sep)`, at least one. */
  function Split(s: string, sep: char): (parts: seq<string>)
    ensures |parts| > 0
  {
    if s == "" then [""]
    else if s[0] == sep then [""] + Split(s[1..], sep)
    else var rest := Split(s[1..], sep); [[s[0]] + rest[0]] + rest[1..]
  }

  function Join(parts: seq<string>, sep: char): string {
    if parts == [] then "" else if |parts| == 1 then parts[0] else parts[0] + [sep] + Join(parts[1..], sep)
  }

  /** Cutting and joining undo each other. */
  lemma {:induction false} JoinSplit(s: string, sep: char)
    ensures Join(Split(s, sep), sep) == s
  {
    if s != "" {
      var rest := Split(s[1..], sep);
      JoinSplit(s[1..], sep);
      assert [s[0]] + s[1..] == s;
      if s[0] == sep {
        assert ([""] + rest)[1..] == rest;
        assert "" + [sep] + Join(rest, sep) == [sep] + Join(rest, sep);
      } else {
        var parts := [[s[0]] + rest[0]] + rest[1..];
        assert parts[1..] == rest[1..];
        if |rest| > 1 {
          Regroup([s[0]], rest[0], [sep]);
          Regroup([s[0]], rest[0] + [sep], Join(rest[1..], sep));
        }
      }
    }
  }

  lemma {:induction false} PartsHaveNone(s: string, sep: char)
    ensures forall part :: part in Split(s, sep) ==> sep !in part
    decreases s
  {
    if s != "" {
      PartsHaveNone(s[1..], sep);
      var rest := Split(s[1..], sep);
      assert rest[0] in rest;
      forall part | part in Split(s, sep) ensures sep !in part {
        if part in rest[1..] {
          assert part in rest;
        }
      }
    }
  }

  lemma {:induction false} SplitOne(a: string, sep: char)
    requires sep !in a
    ensures Split(a, sep) == [a]
  {
    SplitFirst(a, "", sep);
    assert a + "" == a;
  }

  lemma {:induction false} SplitFirst(part: string, rest: string, sep: char)
    requires sep !in part && (rest == "" || rest[0] == sep)
    ensures Split(part + rest, sep) == if rest == "" then [part] else [part] + Split(rest[1..], sep)
    decreases part
  {
    if part == "" {
      assert part + rest == rest;
    } else {
      assert (part + rest)[1..] == part[1..] + rest;
      SplitFirst(part[1..], rest, sep);
      assert [part[0]] + part[1..] == part;
    }
  }

  /** Split undoes Join of parts without the separator. */
  lemma {:induction false} SplitJoin(parts: seq<string>, sep: char)
    requires parts != [] && forall i :: 0 <= i < |parts| ==> sep !in parts[i]
    ensures Split(Join(parts, sep), sep) == parts
  {
    if |parts| == 1 {
      SplitFirst(parts[0], "", sep);
      assert parts[0] + "" == parts[0];
    } else {
      var rest := [sep] + Join(parts[1..], sep);
      assert Join(parts, sep) == parts[0] + rest && rest[1..] == Join(parts[1..], sep);
      SplitFirst(parts[0], rest, sep);
      SplitJoin(parts[1..], sep);
      assert [parts[0]] + parts[1..] == parts;
    }
  }

  // ---- trimming ----

  predicate Blank(s: string) { forall i :: 0 <= i < |s| ==> IsSpace(s[i]) }

  /** Neither starts nor ends with white space. */
  predicate Trimmed(s: string) {
    s == "" || (!IsSpace(s[0]) && !IsSpace(s[|s| - 1]))
  }

  lemma {:induction false} TrimStartOf(pad: string, s: string)
    requires Blank(pad) && (s == "" || !IsSpace(s[0]))
    ensures TrimStart(pad + s) == s
  {
    if pad == "" {
      assert pad + s == s;
    } else {
      assert (pad + s)[1..] == pad[1..] + s;
      TrimStartOf(pad[1..], s);
    }
  }

  lemma {:induction false} TrimEndOf(s: string, pad: string)
    requires Blank(pad) && (s == "" || !IsSpace(s[|s| - 1]))
    ensures TrimEnd(s + pad) == s
  {
    if pad == "" {
      assert s + pad == s;
    } else {
      assert (s + pad)[..|s + pad| - 1] == s + pad[..|pad| - 1];
      TrimEndOf(s, pad[..|pad| - 1]);
    }
  }

  lemma {:induction false} TrimOf(before: string, s: string, after: string)
    requires Blank(before) && Blank(after) && Trimmed(s) && s != ""
    ensures Trim(before + s + after) == s
  {
    Regroup(before, s, after);
    TrimStartOf(before, s + after);
    TrimEndOf(s, after);
  }

  lemma {:induction false} TrimStartExactly(s: string) returns (before: string)
    ensures Blank(before) && s == before + TrimStart(s)
    ensures TrimStart(s) != "" ==> !IsSpace(TrimStart(s)[0])
  {
    if s != "" && IsSpace(s[0]) {
      before := TrimStartExactly(s[1..]);
      assert [s[0]] + s[1..] == s;
      Regroup([s[0]], before, TrimStart(s[1..]));
      before := [s[0]] + before;
    } else {
      before := "";
      assert "" + s == s;
    }
  }

  lemma {:induction false} TrimEndExactly(s: string) returns (after: string)
    ensures Blank(after) && s == TrimEnd(s) + after
    ensures TrimEnd(s) != "" ==> !IsSpace(TrimEnd(s)[|TrimEnd(s)| - 1]) && TrimEnd(s)[0] == s[0]
  {
    if s != "" && IsSpace(s[|s| - 1]) {
      var n := |s| - 1;
      after := TrimEndExactly(s[..n]);
      assert s[..n] + [s[n]] == s;
      Regroup(TrimEnd(s[..n]), after, [s[n]]);
      assert TrimEnd(s) != "" ==> s[..n][0] == s[0];
      after := after + [s[n]];
    } else {
      after := "";
      assert s + "" == s;
    }
  }

  /** Trimming takes white space off both ends, and all there is. */
  lemma {:induction false} TrimExactly(s: string) returns (before: string, after: string)
    ensures Blank(before) && Blank(after) && s == before + Trim(s) + after && Trimmed(Trim(s))
  {
    before := TrimStartExactly(s);
    after := TrimEndExactly(TrimStart(s));
    Regroup(before, Trim(s), after);
  }

  // ---- case ----

  function UpperChar(c: char): char {
    if 'a' <= c <= 'z' then (c as int - 32) as char else c
  }

  /** toUpperCase, on ASCII. */
  function Upper(s: string): (u: string)
    ensures |u| == |s| && forall i :: 0 <= i < |s| ==> u[i] == UpperChar(s[i])
  {
    if s == "" then "" else [UpperChar(s[0])] + Upper(s[1..])
  }

  const LOWER_CASE := "abcdefghijklmnopqrstuvwxyz"
  const UPPER_CASE := "ABCDEFGHIJKLMNOPQRSTUVWXYZ"
  const DIGITS := "0123456789"

  lemma {:induction false} Alphabets()
    ensures |LOWER_CASE| == |UPPER_CASE| == 26 && |DIGITS| == 10
    ensures forall k :: 0 <= k < 26 ==> LOWER_CASE[k] as int == 97 + k && UPPER_CASE[k] as int == 65 + k
    ensures forall k :: 0 <= k < 10 ==> DIGITS[k] as int == 48 + k
  {
  }

  lemma {:induction false} AlphabetHas(c: char)
    ensures c in LOWER_CASE <==> 'a' <= c <= 'z'
    ensures c in UPPER_CASE <==> 'A' <= c <= 'Z'
    ensures c in DIGITS <==> '0' <= c <= '9'
  {
    Alphabets();
    hide *;
    var v := c as int;
    if 97 <= v <= 122 { assert LOWER_CASE[v - 97] == c; }
    if 65 <= v <= 90 { assert UPPER_CASE[v - 65] == c; }
    if 48 <= v <= 57 { assert DIGITS[v - 48] == c; }
  }

  /** Each small letter becomes its capital, and nothing else changes. */
  lemma {:induction false} UpperExactly(c: char)
    ensures c !in LOWER_CASE ==> UpperChar(c) == c
    ensures forall k :: 0 <= k < |LOWER_CASE| && c == LOWER_CASE[k] ==> k < |UPPER_CASE| && UpperChar(c) == UPPER_CASE[k]
    ensures UpperChar(c) !in LOWER_CASE
  {
    AlphabetHas(c);
    AlphabetHas(UpperChar(c));
    Alphabets();
    hide LOWER_CASE, UPPER_CASE, DIGITS;
  }

  lemma {:induction false} UpperTwice(s: string)
    ensures Upper(Upper(s)) == Upper(s)
  {
  }
}
