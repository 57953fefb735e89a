/**
 * The lines of the agent's `/exec` response: Go's `execEvent` as its encoder
 * prints it, and the client's `AgentEvent` as `JSON.parse` returns it.
 */
module ExecEvents {
  import opened Common
  import opened Json
  import Base64
  import Decimal
  import Utf8
  import opened Ndjson
  import opened Text

  /** One event; a field at its zero value is left out of the line. */
  datatype ExecEvent = ExecEvent(
    pid: int, stdout: seq<byte>, stderr: seq<byte>, exit: Option<int>, timedOut: bool, error: string)

  const Blank := ExecEvent(0, [], [], None, false, "")

  function PidEvent(pid: int): ExecEvent { Blank.(pid := pid) }

  function StdoutEvent(chunk: seq<byte>): ExecEvent { Blank.(stdout := chunk) }

  function StderrEvent(chunk: seq<byte>): ExecEvent { Blank.(stderr := chunk) }

  function ExitEvent(code: int, timedOut: bool): ExecEvent { Blank.(exit := Some(code), timedOut := timedOut) }

  function ErrorEvent(message: string): ExecEvent { Blank.(error := message) }

  function FieldIf(set_: bool, key: string, value: Scalar): Fields {
    if set_ then [(key, value)] else []
  }

  function OutputFields(e: ExecEvent): Fields {
    FieldIf(e.pid != 0, "pid", Num(e.pid))
    + FieldIf(e.stdout != [], "stdout", Str(Base64.Encode(e.stdout)))
    + FieldIf(e.stderr != [], "stderr", Str(Base64.Encode(e.stderr)))
  }

  function ToFields(e: ExecEvent): Fields {
    OutputFields(e)
    + FieldIf(e.exit.Some?, "exit", Num(if e.exit.Some? then e.exit.value else 0))
    + FieldIf(e.timedOut, "timedOut", Bool(true))
    + FieldIf(e.error != "", "error", Str(e.error))
  }

  function Line(e: ExecEvent): string {
    PrintObject(ToFields(e)) + "\n"
  }

  function LinesText(events: seq<ExecEvent>): string {
    if events == [] then "" else Line(events[0]) + LinesText(events[1..])
  }

  function LineBytes(e: ExecEvent): seq<byte> {
    Utf8.Encode(Line(e))
  }

  /** What the response body holds once these events have been sent. */
  function LinesBytes(events: seq<ExecEvent>): seq<byte> {
    Utf8.Encode(LinesText(events))
  }

  /** A parsed line as the client reads it: every field optional. */
  datatype AgentEvent = AgentEvent(
    stdout: Option<string>, stderr: Option<string>, exit: Option<int>, timedOut: bool, error: Option<string>)

  /** The value of a key, the last one when it is repeated. */
  function Lookup(fields: Fields, key: string): Option<Scalar> {
    if fields == [] then None
    else if fields[|fields| - 1].0 == key then Some(fields[|fields| - 1].1)
    else Lookup(fields[..|fields| - 1], key)
  }

  function StringOf(v: Option<Scalar>): Option<string> {
    match v
    case Some(Str(s)) => Some(s)
    case _ => None
  }

  function NumberOf(v: Option<Scalar>): Option<int> {
    match v
    case Some(Num(n)) => Some(n)
    case _ => None
  }

  function ParseEvent(line: string): Option<AgentEvent> {
    match ParseObject(line)
    case None => None
    case Some(fields) => Some(AgentEvent(
      StringOf(Lookup(fields, "stdout")), StringOf(Lookup(fields, "stderr")),
      NumberOf(Lookup(fields, "exit")), Lookup(fields, "timedOut") == Some(Bool(true)),
      StringOf(Lookup(fields, "error"))))
  }

  lemma {:induction false} EscapesNothing(s: string)
    requires forall i :: 0 <= i < |s| ==> Base64.Plain(s[i])
    ensures EscapeAll(s) == s
  {
    if s != "" {
      assert Escape(s[0]) == [s[0]] && [s[0]] + s[1..] == s;
      hide Escape;
      EscapesNothing(s[1..]);
    }
  }

  lemma {:induction false} FieldsOf(pid: int, chunk: seq<byte>, code: int, message: string)
    ensures pid != 0 ==> ToFields(PidEvent(pid)) == [("pid", Num(pid))]
    ensures chunk != [] ==> ToFields(StdoutEvent(chunk)) == [("stdout", Str(Base64.Encode(chunk)))]
    ensures chunk != [] ==> ToFields(StderrEvent(chunk)) == [("stderr", Str(Base64.Encode(chunk)))]
    ensures ToFields(ExitEvent(code, false)) == [("exit", Num(code))]
    ensures ToFields(ExitEvent(code, true)) == [("exit", Num(code)), ("timedOut", Bool(true))]
    ensures message != "" ==> ToFields(ErrorEvent(message)) == [("error", Str(message))]
  {
    hide Base64.Encode;
  }

  lemma {:induction false} LineOfOne(e: ExecEvent, key: string, v: Scalar)
    ensures ToFields(e) == [(key, v)] && (forall i :: 0 <= i < |key| ==> Base64.Plain(key[i])) ==>
              Line(e) == "{\"" + key + "\":" + PrintScalar(v) + "}\n"
  {
    hide PrintScalar, ToFields, EscapeAll;
    if ToFields(e) == [(key, v)] && forall i :: 0 <= i < |key| ==> Base64.Plain(key[i]) {
      EscapesNothing(key);
      assert "{" + ("\"" + key + "\"" + ":" + PrintScalar(v) + "}") + "\n" == "{\"" + key + "\":" + PrintScalar(v) + "}\n";
    }
  }

  lemma {:induction false} LineOfTwo(code: int)
    ensures Line(ExitEvent(code, true))
         == "{" + "\"exit\":" + Decimal.PrintInt(code) + "," + "\"timedOut\":true" + "}" + "\n"
  {
    hide *;
    var n := Decimal.PrintInt(code);
    FieldsOf(1, [0], code, "a");
    LinePrints(ExitEvent(code, true));
    TwoMembers(("exit", Num(code)), ("timedOut", Bool(true)));
    MemberNames(Num(code), Bool(true));
    Scalars(Num(code));
    InARow("{", "\"exit\":", n, ",", "\"timedOut\":true", "}", "\n");
  }

  lemma {:induction false} InARow(a: string, b: string, c: string, d: string, e: string, f: string, g: string)
    ensures a + (b + c + (d + (e + f))) + g == a + b + c + d + e + f + g
  {
    Regroup(b + c, d, e + f);
    Regroup(b + c + d, e, f);
    Regroup(a, b + c + d + e, f);
    Regroup(a, b + c + d, e);
    Regroup(a, b + c, d);
    Regroup(a, b, c);
  }

  lemma {:induction false} LinePrints(e: ExecEvent)
    ensures Line(e) == PrintObject(ToFields(e)) + "\n"
  {
  }

  lemma {:induction false} TwoMembers(f: (string, Scalar), g: (string, Scalar))
    ensures PrintObject([f, g]) == "{" + (PrintMember(f) + ("," + (PrintMember(g) + "}")))
  {
    hide PrintMember;
    var fields := [f, g];
    assert fields[1..] == [g] && PrintMembers([g]) == PrintMember(g) + "}";
    Regroup(PrintMember(f), ",", PrintMember(g) + "}");
    assert PrintMembers(fields) == PrintMember(f) + ("," + PrintMembers(fields[1..]));
  }

  lemma {:induction false} MemberNames(v: Scalar, w: Scalar)
    ensures PrintMember(("exit", v)) == "\"exit\":" + PrintScalar(v)
    ensures PrintMember(("timedOut", w)) == "\"timedOut\":" + PrintScalar(w)
    ensures PrintScalar(Bool(true)) == "true"
    ensures "\"timedOut\":" + "true" == "\"timedOut\":true"
  {
    hide EscapeAll;
    EscapesNothing("exit");
    EscapesNothing("timedOut");
  }

  /** The line of each kind of event, letter by letter. */
  lemma {:induction false} WireFormat(pid: int, chunk: seq<byte>, code: int, message: string)
    ensures pid != 0 ==> Line(PidEvent(pid)) == "{\"pid\":" + Decimal.PrintInt(pid) + "}\n"
    ensures chunk != [] ==> Line(StdoutEvent(chunk)) == "{\"stdout\":\"" + Base64.Encode(chunk) + "\"}\n"
    ensures chunk != [] ==> Line(StderrEvent(chunk)) == "{\"stderr\":\"" + Base64.Encode(chunk) + "\"}\n"
    ensures Line(ExitEvent(code, false)) == "{\"exit\":" + Decimal.PrintInt(code) + "}\n"
    ensures Line(ExitEvent(code, true))
         == "{" + "\"exit\":" + Decimal.PrintInt(code) + "," + "\"timedOut\":true" + "}" + "\n"
    ensures message != "" ==> Line(ErrorEvent(message)) == "{\"error\":\"" + EscapeAll(message) + "\"}\n"
  {
    hide Line, EscapeAll, Base64.Encode, Decimal.PrintInt, Quote, ToFields, PrintScalar;
    Base64.EncodedShape(chunk);
    EscapesNothing(Base64.Encode(chunk));
    FieldsOf(pid, chunk, code, message);
    LineOfOne(PidEvent(pid), "pid", Num(pid));
    LineOfOne(StdoutEvent(chunk), "stdout", Str(Base64.Encode(chunk)));
    LineOfOne(StderrEvent(chunk), "stderr", Str(Base64.Encode(chunk)));
    LineOfOne(ExitEvent(code, false), "exit", Num(code));
    LineOfOne(ErrorEvent(message), "error", Str(message));
    LineOfTwo(code);
    Scalars(Num(pid));
    Scalars(Num(code));
    Scalars(Str(Base64.Encode(chunk)));
    Scalars(Str(message));
  }

  lemma {:induction false} Scalars(v: Scalar)
    ensures v.Num? ==> PrintScalar(v) == Decimal.PrintInt(v.n)
    ensures v.Str? ==> PrintScalar(v) == "\"" + EscapeAll(v.s) + "\""
  {
  }

  /** What the client sees of an event. */
  function View(e: ExecEvent): AgentEvent {
    AgentEvent(
      if e.stdout == [] then None else Some(Base64.Encode(e.stdout)),
      if e.stderr == [] then None else Some(Base64.Encode(e.stderr)),
      e.exit, e.timedOut, if e.error == "" then None else Some(e.error))
  }

  function Views(events: seq<ExecEvent>): seq<AgentEvent> {
    if events == [] then [] else [View(events[0])] + Views(events[1..])
  }

  lemma {:induction false} LookupLast(fields: Fields, on: bool, k: string, v: Scalar, key: string)
    ensures Lookup(fields + FieldIf(on, k, v), key) ==
            if on && k == key then Some(v) else Lookup(fields, key)
  {
    assert on ==> (fields + [(k, v)])[..|fields|] == fields;
    assert !on ==> fields + [] == fields;
  }

  lemma {:induction false} LookupOutput(e: ExecEvent, key: string)
    ensures Lookup(OutputFields(e), key) ==
            if e.stderr != [] && "stderr" == key then Some(Str(Base64.Encode(e.stderr)))
            else if e.stdout != [] && "stdout" == key then Some(Str(Base64.Encode(e.stdout)))
            else if e.pid != 0 && "pid" == key then Some(Num(e.pid))
            else None
  {
    var out, err := Str(Base64.Encode(e.stdout)), Str(Base64.Encode(e.stderr));
    var f1 := FieldIf(e.pid != 0, "pid", Num(e.pid));
    LookupLast([], e.pid != 0, "pid", Num(e.pid), key);
    assert [] + f1 == f1;
    LookupLast(f1, e.stdout != [], "stdout", out, key);
    LookupLast(f1 + FieldIf(e.stdout != [], "stdout", out), e.stderr != [], "stderr", err, key);
  }

  lemma {:induction false} LookupEvent(e: ExecEvent, key: string)
    ensures Lookup(ToFields(e), key) ==
            if e.error != "" && "error" == key then Some(Str(e.error))
            else if e.timedOut && "timedOut" == key then Some(Bool(true))
            else if e.exit.Some? && "exit" == key then Some(Num(e.exit.value))
            else Lookup(OutputFields(e), key)
  {
    var f3, exit := OutputFields(e), Num(if e.exit.Some? then e.exit.value else 0);
    var f4 := f3 + FieldIf(e.exit.Some?, "exit", exit);
    LookupLast(f3, e.exit.Some?, "exit", exit, key);
    LookupLast(f4, e.timedOut, "timedOut", Bool(true), key);
    LookupLast(f4 + FieldIf(e.timedOut, "timedOut", Bool(true)), e.error != "", "error", Str(e.error), key);
  }

  lemma {:induction false} LookupEventKeys(e: ExecEvent)
    ensures StringOf(Lookup(ToFields(e), "stdout")) == View(e).stdout
    ensures StringOf(Lookup(ToFields(e), "stderr")) == View(e).stderr
    ensures NumberOf(Lookup(ToFields(e), "exit")) == e.exit
    ensures Lookup(ToFields(e), "timedOut") == (if e.timedOut then Some(Bool(true)) else None)
    ensures StringOf(Lookup(ToFields(e), "error")) == View(e).error
  {
    LookupOutput(e, "stdout");
    LookupEvent(e, "stdout");
    LookupOutput(e, "stderr");
    LookupEvent(e, "stderr");
    LookupOutput(e, "exit");
    LookupEvent(e, "exit");
    LookupOutput(e, "timedOut");
    LookupEvent(e, "timedOut");
    LookupOutput(e, "error");
    LookupEvent(e, "error");
  }

  /** Every event reads back as the client is meant to see it. */
  lemma {:induction false} ParsePrintEvent(e: ExecEvent)
    ensures ParseEvent(PrintObject(ToFields(e))) == Some(View(e))
  {
    ParsePrintObject(ToFields(e));
    LookupEventKeys(e);
  }

  lemma {:induction false} EscapedHasNoNewline(s: string)
    ensures '\n' !in EscapeAll(s)
  {
    if s != "" {
      EscapedHasNoNewline(s[1..]);
    }
  }

  lemma {:induction false} ScalarHasNoNewline(v: Scalar)
    ensures '\n' !in PrintScalar(v)
  {
    match v
    case Num(n) => NumberHasNoNewline(n);
    case Str(s) => EscapedHasNoNewline(s);
    case Bool(_) =>
  }

  lemma {:induction false} NumberHasNoNewline(n: int)
    ensures '\n' !in Decimal.PrintInt(n)
  {
    var digits := Decimal.Print(if n < 0 then -n else n);
    assert forall i :: 0 <= i < |digits| ==> Decimal.IsDigit(digits[i]);
  }

  lemma {:induction false} MembersHaveNoNewline(fields: Fields)
    requires fields != []
    ensures '\n' !in PrintMembers(fields)
    ensures PrintMembers(fields)[|PrintMembers(fields)| - 1] == '}'
  {
    EscapedHasNoNewline(fields[0].0);
    ScalarHasNoNewline(fields[0].1);
    assert '\n' !in PrintMember(fields[0]);
    if |fields| > 1 {
      MembersHaveNoNewline(fields[1..]);
    }
  }

  /** A printed object holds no newline, and no space at either end. */
  lemma {:induction false} ObjectIsOneLine(fields: Fields)
    ensures '\n' !in PrintObject(fields)
    ensures Trim(PrintObject(fields)) == PrintObject(fields)
  {
    if fields != [] {
      MembersHaveNoNewline(fields);
    }
    var s := PrintObject(fields);
    assert s[0] == '{' && s[|s| - 1] == '}';
  }

  lemma {:induction false} TrimEndIsPrefix(s: string)
    ensures exists n :: 0 <= n <= |s| && TrimEnd(s) == s[..n]
  {
    if s != "" && IsSpace(s[|s| - 1]) {
      TrimEndIsPrefix(s[..|s| - 1]);
      var n :| 0 <= n <= |s| - 1 && TrimEnd(s[..|s| - 1]) == s[..|s| - 1][..n];
      assert s[..|s| - 1][..n] == s[..n];
    } else {
      assert s == s[..|s|];
    }
  }

  lemma {:induction false} TextOfCut(body: string, cut: string, more: string)
    requires cut + more == body + "\n" && more != ""
    ensures |cut| <= |body| && cut == body[..|cut|]
  {
    assert |cut| + |more| == |body| + 1;
    assert cut == (cut + more)[..|cut|] == (body + "\n")[..|cut|];
  }

  /** What a line cut short reads as: nothing, or something that does not
      parse, or the whole event when only its newline is missing. */
  lemma {:induction false} CutLine(e: ExecEvent, cut: string, more: string)
    requires cut + more == Line(e) && more != ""
    ensures Values(Records(cut), ParseEvent).0 == [] || Values(Records(cut), ParseEvent).0 == [View(e)]
  {
    var body := PrintObject(ToFields(e));
    ObjectIsOneLine(ToFields(e));
    TextOfCut(body, cut, more);
    OnePiece(cut);
    if Trim(cut) == body {
      ParsePrintEvent(e);
    } else if Trim(cut) != "" {
      CutTrims(ToFields(e), cut);
    }
  }

  lemma {:induction false} OnePiece(piece: string)
    requires '\n' !in piece
    ensures Values(Records(piece), ParseEvent).0 ==
            if Trim(piece) == "" || ParseEvent(Trim(piece)).None? then [] else [ParseEvent(Trim(piece)).value]
  {
    assert Records(piece) == NonBlank(piece);
    assert Trim(piece) != "" ==> NonBlank(piece)[1..] == [];
  }

  lemma {:induction false} CutTrims(fields: Fields, cut: string)
    requires |cut| <= |PrintObject(fields)| && cut == PrintObject(fields)[..|cut|]
    requires Trim(cut) != "" && Trim(cut) != PrintObject(fields)
    ensures ParseObject(Trim(cut)) == None
  {
    var body := PrintObject(fields);
    assert cut != "" && cut[0] == body[0] == '{';
    TrimEndIsPrefix(cut);
    var n :| 0 <= n <= |cut| && TrimEnd(cut) == cut[..n];
    assert cut[..n] + body[n..] == body;
    CutObjectFails(fields, cut[..n], body[n..]);
  }

  lemma {:induction false} WholeLine(e: ExecEvent, rest: string)
    ensures Values(Records(Line(e) + rest), ParseEvent) ==
            ([View(e)] + Values(Records(rest), ParseEvent).0, Values(Records(rest), ParseEvent).1)
  {
    var body := PrintObject(ToFields(e));
    ObjectIsOneLine(ToFields(e));
    RecordsOfLine(body, rest);
    ParsePrintEvent(e);
    assert ([body] + Records(rest))[1..] == Records(rest);
  }

  lemma {:induction false} Align<T>(line: seq<T>, rest: seq<T>, text: seq<T>, more: seq<T>) returns (t: seq<T>)
    requires text + more == line + rest && |line| <= |text|
    ensures text == line + t && t + more == rest
  {
    t := text[|line|..];
    assert text[..|line|] == (text + more)[..|line|] == line;
    assert t + more == (text + more)[|line|..] == rest;
  }

  /** However much of the lines arrives, the values read are those of the
      first so many events, in order and nothing else. */
  lemma {:induction false} CutText(events: seq<ExecEvent>, text: string, more: string) returns (k: nat)
    requires text + more == LinesText(events)
    ensures k <= |events|
    ensures Values(Records(text), ParseEvent).0 == Views(events[..k])
    ensures more == "" ==> k == |events| && Values(Records(text), ParseEvent).1
  {
    if events == [] {
      k := 0;
    } else if |text| < |Line(events[0])| {
      k := CutTextShort(events, text, more);
    } else {
      var t := Align(Line(events[0]), LinesText(events[1..]), text, more);
      var j := CutText(events[1..], t, more);
      WholeLine(events[0], t);
      ViewsFirst(events, j);
      k := j + 1;
    }
  }

  lemma {:induction false} ViewsFirst(events: seq<ExecEvent>, j: nat)
    requires j < |events|
    ensures Views(events[..j + 1]) == [View(events[0])] + Views(events[1..][..j])
  {
    assert events[..j + 1][1..] == events[1..][..j];
  }

  lemma {:induction false} StartsOwnLine(events: seq<ExecEvent>, text: string, more: string)
    requires events != [] && text + more == LinesText(events) && |text| < |Line(events[0])|
    ensures more != "" && text + Line(events[0])[|text|..] == Line(events[0])
  {
    hide Line;
    var line := Line(events[0]);
    assert |text + more| == |text| + |more|;
    assert text == (text + more)[..|text|] == line[..|text|];
  }

  lemma {:induction false} CutTextShort(events: seq<ExecEvent>, text: string, more: string) returns (k: nat)
    requires events != [] && text + more == LinesText(events) && |text| < |Line(events[0])|
    ensures k <= 1 && more != "" && Values(Records(text), ParseEvent).0 == Views(events[..k])
  {
    hide LinesText, Line, Values, Records, ParseEvent, View;
    var line := Line(events[0]);
    StartsOwnLine(events, text, more);
    CutLine(events[0], text, line[|text|..]);
    k := |Values(Records(text), ParseEvent).0|;
    assert Views(events[..0]) == [];
    assert events[..1] == [events[0]] && events[..1][1..] == [];
    assert [View(events[0])] + [] == [View(events[0])];
  }
}
