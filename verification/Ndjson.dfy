/**
 * The NDJSON reader: one value a line, whatever chunks the bytes come in.
 * `JSON.parse` is a parameter, None standing for its exception.
 */
module Ndjson {
  import opened Common
  import opened Text
  import opened Utf8

  function NonBlank(line: string): seq<string> {
    if Trim(line) == "" then [] else [Trim(line)]
  }

  /** The records of a text: its trimmed lines but the blank ones, an
      unterminated last line included. */
  function Records(text: string): seq<string>
    decreases |text|
  {
    var i := IndexOf(text, '\n');
    if i == -1 then NonBlank(text) else NonBlank(text[..i]) + Records(text[i + 1..])
  }

  /** The values of records up to the first that does not parse, and whether
      all of them did. */
  function Values<V>(records: seq<string>, parse: string -> Option<V>): (seq<V>, bool) {
    if records == [] then ([], true)
    else match parse(records[0])
      case None => ([], false)
      case Some(v) =>
        var (rest, ok) := Values(records[1..], parse);
        ([v] + rest, ok)
  }

  /** The trimmed lines of a text, but the blank ones. */
  function Trimmings(lines: seq<string>): seq<string> {
    if lines == [] then [] else (if Trim(lines[0]) == "" then [] else [Trim(lines[0])]) + Trimmings(lines[1..])
  }

  /** The records are what is between the newlines, trimmed. */
  lemma {:induction false} RecordsAreLines(text: string)
    ensures Records(text) == Trimmings(Split(text, '\n'))
    decreases |text|
  {
    hide *;
    var none: seq<string> := [];
    var i := IndexOf(text, '\n');
    if i == -1 {
      SplitOne(text, '\n');
      LastRecord(text);
      FirstTrimming(text, none);
      assert [text] + none == [text] && NonBlank(text) + none == NonBlank(text);
    } else {
      var line, rest := text[..i], text[i + 1..];
      RecordsAreLines(rest);
      SplitFirst(line, "\n" + rest, '\n');
      assert ("\n" + rest)[1..] == rest;
      assert text == line + "\n" + rest == line + ("\n" + rest);
      RecordsOfLine(line, rest);
      FirstTrimming(line, Split(rest, '\n'));
    }
  }

  lemma {:induction false} LastRecord(text: string)
    requires '\n' !in text
    ensures Records(text) == NonBlank(text) && Trimmings([]) == []
  {
    hide Trim;
  }

  lemma {:induction false} FirstTrimming(line: string, rest: seq<string>)
    ensures Trimmings([line] + rest) == NonBlank(line) + Trimmings(rest)
  {
    hide Trim;
    assert ([line] + rest)[1..] == rest;
  }

  /** The values are those of the records before the first that does not parse,
      or of all. */
  lemma {:induction false} ValuesExactly<V>(records: seq<string>, parse: string -> Option<V>)
    ensures var (values, ok) := Values(records, parse);
            && |values| <= |records|
            && (forall k :: 0 <= k < |values| ==> parse(records[k]) == Some(values[k]))
            && (ok <==> |values| == |records|)
            && (!ok ==> parse(records[|values|]) == None)
  {
    if records != [] {
      ValuesExactly(records[1..], parse);
    }
  }

  /** Whether a line break ends this much of the text. */
  predicate AtLineStart(text: string) {
    text == "" || text[|text| - 1] == '\n'
  }

  lemma {:induction false} IndexOfIs(s: string, c: char, i: nat)
    requires i < |s| && s[i] == c && c !in s[..i]
    ensures IndexOf(s, c) == i
  {
    if i > 0 {
      assert s[0] == s[..i][0];
      assert s[1..][..i - 1] == s[..i][1..];
      IndexOfIs(s[1..], c, i - 1);
    }
  }

  lemma {:induction false} RecordsOfLine(line: string, rest: string)
    requires '\n' !in line
    ensures Records(line + "\n" + rest) == NonBlank(line) + Records(rest)
  {
    var text := line + "\n" + rest;
    assert text[..|line|] == line && text[|line| + 1..] == rest;
    IndexOfIs(text, '\n', |line|);
  }

  lemma {:induction false} CutAtLine(a: string) returns (line: string, more: string)
    requires AtLineStart(a) && a != ""
    ensures '\n' !in line && AtLineStart(more) && a == line + "\n" + more
  {
    var i := IndexOf(a, '\n');
    assert i != -1;
    line, more := a[..i], a[i + 1..];
    assert more != "" ==> more[|more| - 1] == a[|a| - 1];
  }

  lemma {:induction false} RecordsStep(line: string, more: string, b: string)
    requires '\n' !in line && Records(more + b) == Records(more) + Records(b)
    ensures Records(line + "\n" + more + b) == Records(line + "\n" + more) + Records(b)
  {
    Regroup(line + "\n", more, b);
    RecordsOfLine(line, more);
    RecordsOfLine(line, more + b);
    Regroup(NonBlank(line), Records(more), Records(b));
  }

  /** Whole lines and what follows them are read apart. */
  lemma {:induction false} RecordsSplit(a: string, b: string)
    requires AtLineStart(a)
    ensures Records(a + b) == Records(a) + Records(b)
    decreases |a|
  {
    if a == "" {
      assert a + b == b && Records(a) + Records(b) == Records(b);
    } else {
      var line, more := CutAtLine(a);
      RecordsSplit(more, b);
      RecordsStep(line, more, b);
    }
  }

  lemma {:induction false} ValuesSplit<V>(a: seq<string>, b: seq<string>, parse: string -> Option<V>)
    ensures Values(a + b, parse) ==
            if Values(a, parse).1 then (Values(a, parse).0 + Values(b, parse).0, Values(b, parse).1)
            else Values(a, parse)
  {
    if a == [] {
      assert a + b == b && [] + Values(b, parse).0 == Values(b, parse).0;
    } else {
      assert (a + b)[1..] == a[1..] + b;
      ValuesSplit(a[1..], b, parse);
      var v, x, y := parse(a[0]), Values(a[1..], parse).0, Values(b, parse).0;
      assert v.Some? ==> [v.value] + (x + y) == [v.value] + x + y;
    }
  }

  lemma {:induction false} ValuesOfRecord<V>(records: seq<string>, line: string, parse: string -> Option<V>)
    requires Values(records, parse).1
    ensures Values(records + NonBlank(line), parse) ==
            if Trim(line) == "" then Values(records, parse)
            else if parse(Trim(line)).None? then (Values(records, parse).0, false)
            else (Values(records, parse).0 + [parse(Trim(line)).value], true)
  {
    var record, values := NonBlank(line), Values(records, parse).0;
    ValuesSplit(records, record, parse);
    if record == [] {
      assert records + record == records;
    } else {
      assert record[1..] == [] && values + [] == values;
      assert parse(record[0]).Some? ==> [parse(record[0]).value] + [] == [parse(record[0]).value];
    }
  }

  /** One more line of the text, read against everything read before it. */
  lemma {:induction false} ValuesOfLine<V>(before: string, line: string, parse: string -> Option<V>)
    requires AtLineStart(before) && '\n' !in line && Values(Records(before), parse).1
    ensures AtLineStart(before + line + "\n")
    ensures Values(Records(before + line + "\n"), parse) ==
            if Trim(line) == "" then Values(Records(before), parse)
            else if parse(Trim(line)).None? then (Values(Records(before), parse).0, false)
            else (Values(Records(before), parse).0 + [parse(Trim(line)).value], true)
  {
    assert Records(before + line + "\n") == Records(before) + NonBlank(line) by {
      Regroup(before, line, "\n");
      RecordsSplit(before, line + "\n");
      assert line + "\n" + "" == line + "\n";
      RecordsOfLine(line, "");
      assert NonBlank(line) + Records("") == NonBlank(line);
    }
    assert (before + line + "\n")[|before| + |line|] == '\n';
    ValuesOfRecord(Records(before), line, parse);
  }

  /** A line that does not parse ends the reading, whatever comes later. */
  lemma {:induction false} ValuesStop<V>(before: string, after: string, parse: string -> Option<V>)
    requires AtLineStart(before) && !Values(Records(before), parse).1
    ensures Values(Records(before + after), parse) == Values(Records(before), parse)
  {
    RecordsSplit(before, after);
    ValuesSplit(Records(before), Records(after), parse);
  }

  /** The inner loop's step: one line leaves the buffer. */
  lemma {:induction false} TakeLine<V>(before: string, buffered: string, i: int, parse: string -> Option<V>)
    requires AtLineStart(before) && Values(Records(before), parse).1
    requires i == IndexOf(buffered, '\n') != -1
    ensures var line, after := Trim(buffered[..i]), before + buffered[..i] + "\n";
            && AtLineStart(after) && after + buffered[i + 1..] == before + buffered
            && Values(Records(after), parse) ==
               if line == "" then Values(Records(before), parse)
               else if parse(line).None? then (Values(Records(before), parse).0, false)
               else (Values(Records(before), parse).0 + [parse(line).value], true)
  {
    LineMoves(before, buffered, i);
    ValuesOfLine(before, buffered[..i], parse);
  }

  lemma {:induction false} LineMoves(before: string, buffered: string, i: nat)
    requires i < |buffered| && buffered[i] == '\n'
    ensures before + buffered[..i] + "\n" + buffered[i + 1..] == before + buffered
  {
    assert buffered == buffered[..i] + "\n" + buffered[i + 1..];
    Regroup(before, buffered[..i] + "\n", buffered[i + 1..]);
    Regroup(before, buffered[..i], "\n");
  }

  /** The values the whole stream carries, had it come in one piece. */
  function StreamValues<V>(bytes: seq<byte>, parse: string -> Option<V>): (seq<V>, bool) {
    Values(Records(Decode(bytes)), parse)
  }

  /** The text up to its last newline. */
  function WholeLines(text: string): string {
    if AtLineStart(text) then text else WholeLines(text[..|text| - 1])
  }

  /** It is the text without what follows that, or nothing. */
  lemma {:induction false} WholeLinesExactly(text: string) returns (rest: string)
    ensures text == WholeLines(text) + rest && '\n' !in rest
    ensures WholeLines(text) == "" || WholeLines(text)[|WholeLines(text)| - 1] == '\n'
  {
    if AtLineStart(text) {
      rest := "";
      assert text + "" == text;
    } else {
      var n := |text| - 1;
      rest := WholeLinesExactly(text[..n]);
      assert text[..n] + [text[n]] == text;
      Regroup(WholeLines(text), rest, [text[n]]);
      rest := rest + [text[n]];
    }
  }

  /** What a body yields whose connection breaks after these bytes: the values of
      its whole lines, and an exception. */
  function BrokenValues<V>(bytes: seq<byte>, parse: string -> Option<V>): (seq<V>, bool) {
    (Values(Records(WholeLines(Decode(bytes))), parse).0, false)
  }

  lemma {:induction false} WholeLinesAfter(before: string, rest: string)
    requires AtLineStart(before)
    ensures WholeLines(before + rest) == before + WholeLines(rest)
  {
    if rest == "" {
      assert before + "" == before;
    } else if !AtLineStart(rest) {
      assert (before + rest)[..|before + rest| - 1] == before + rest[..|rest| - 1];
      WholeLinesAfter(before, rest[..|rest| - 1]);
    }
  }

  lemma {:induction false} NoWholeLine(text: string)
    requires '\n' !in text
    ensures WholeLines(text) == ""
  {
    if text != "" {
      NoWholeLine(text[..|text| - 1]);
    }
  }

  /** The generator, run to its end: what it yields, and whether it ends
      without throwing. The answer depends on the bytes alone, not on where
      the chunks fall. */
  method ReadNdjson<V>(chunks: seq<seq<byte>>, broken: bool, parse: string -> Option<V>) returns (values: seq<V>, ok: bool)
    ensures (values, ok) == if broken then BrokenValues(Flatten(chunks), parse) else StreamValues(Flatten(chunks), parse)
  {
    var decoder := new TextDecoder();
    var buffered := "";
    values := [];
    ghost var before := "";
    assert before + buffered == "" && Flatten(chunks[..0]) == [];
    for i := 0 to |chunks|
      invariant AtLineStart(before) && '\n' !in buffered
      invariant decoder.state == Feed(Initial, Flatten(chunks[..i])).0
      invariant before + buffered == Decode(Flatten(chunks[..i]))
      invariant Values(Records(before), parse) == (values, true)
    {
      FlattenTake(chunks, i);
      FeedAppend(Initial, Flatten(chunks[..i]), chunks[i]);
      var text := decoder.Decode(chunks[i]);
      Regroup(before, buffered, text);
      buffered := buffered + text;
      ghost var sofar := before + buffered;
      var newline := IndexOf(buffered, '\n');
      while newline != -1
        invariant decoder.state == Feed(Initial, Flatten(chunks[..i + 1])).0
        invariant AtLineStart(before) && before + buffered == sofar
        invariant newline == IndexOf(buffered, '\n')
        invariant Values(Records(before), parse) == (values, true)
        decreases |buffered|
      {
        TakeLine(before, buffered, newline, parse);
        var line := Trim(buffered[..newline]);
        before := before + buffered[..newline] + "\n";
        buffered := buffered[newline + 1..];
        if line != "" {
          match parse(line)
          case None =>
            ghost var rest := DecodedSoFar(chunks, i);
            Regroup(before, buffered, rest);
            ValuesStop(before, buffered + rest, parse);
            WholeLinesAfter(before, buffered + rest);
            ValuesStop(before, WholeLines(buffered + rest), parse);
            return values, false;
          case Some(v) => values := values + [v];
        }
        newline := IndexOf(buffered, '\n');
      }
    }
    assert chunks[..|chunks|] == chunks;
    if broken {
      WholeLinesAfter(before, buffered);
      NoWholeLine(buffered);
      assert before + "" == before;
      return values, false;
    }
    RecordsOfRest(before, buffered, parse);
    var last := Trim(buffered);
    if last != "" {
      match parse(last)
      case None => return values, false;
      case Some(v) => return values + [v], true;
    }
    return values, true;
  }

  lemma {:induction false} RecordsOfRest<V>(before: string, rest: string, parse: string -> Option<V>)
    requires AtLineStart(before) && Values(Records(before), parse).1 && '\n' !in rest
    ensures Values(Records(before + rest), parse) ==
            if Trim(rest) == "" then Values(Records(before), parse)
            else if parse(Trim(rest)).None? then (Values(Records(before), parse).0, false)
            else (Values(Records(before), parse).0 + [parse(Trim(rest)).value], true)
  {
    RecordsSplit(before, rest);
    ValuesOfRecord(Records(before), rest, parse);
  }

  /** What is decoded so far is a prefix of what will be. */
  lemma {:induction false} DecodedSoFar(chunks: seq<seq<byte>>, i: nat) returns (rest: string)
    requires i < |chunks|
    ensures Decode(Flatten(chunks)) == Decode(Flatten(chunks[..i + 1])) + rest
  {
    FlattenAppend(chunks[..i + 1], chunks[i + 1..]);
    assert chunks[..i + 1] + chunks[i + 1..] == chunks;
    FeedAppend(Initial, Flatten(chunks[..i + 1]), Flatten(chunks[i + 1..]));
    rest := Feed(Feed(Initial, Flatten(chunks[..i + 1])).0, Flatten(chunks[i + 1..])).1;
  }

  /** Of well-formed text, the values are those of its non-blank lines, but
      for one leading byte order mark. */
  lemma {:induction false} ValuesOfText<V>(text: string, parse: string -> Option<V>)
    ensures StreamValues(Encode(text), parse) == Values(Records(DropBom(false, text)), parse)
  {
    DecodeEncode(text);
  }

  /** Of any bytes, each line stands alone: splitting at newline bytes and
      decoding agree, even where the bytes are not well-formed. */
  lemma {:induction false} LinesDecodeApart(a: seq<byte>, b: seq<byte>)
    ensures Records(Decode(a + [NEWLINE] + b)) == Records(Decode(a + [NEWLINE])) + Records(Feed(Steady, b).1)
  {
    NewlineResynchronises(Initial, a, b);
    RecordsSplit(Decode(a + [NEWLINE]), Feed(Steady, b).1);
  }
}
