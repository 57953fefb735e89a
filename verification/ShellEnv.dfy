/**
 * The env prefix the adapter compiles its variables into, and what a shell
 * makes of it: simple commands, `;` lists and AND-OR lists (section 2.9.3 of
 * POSIX.1-2017 XCU), with the built-ins `export` and `[`.
 */
module ShellEnv {
  import opened Common
  import opened Shell
  import Text

  /** The shell's environment; image variables and exports alike. */
  type Env = map<string, string>

  /** What `Object.entries` gives: in insertion order. */
  type Entries = seq<(string, string)>

  // ---- the shell ----

  function ValueOf(env: Env, name: string): string {
    if name in env then env[name] else ""
  }

  function Expand(word: Word, env: Env): string {
    if word == [] then ""
    else (match word[0] case Lit(c) => [c] case OrEmpty(name) => ValueOf(env, name)) + Expand(word[1..], env)
  }

  /** The arguments of a command. Every expansion is inside double quotes, so
      no field is ever split or dropped. */
  function ExpandAll(words: seq<Word>, env: Env): seq<string> {
    if words == [] then [] else [Expand(words[0], env)] + ExpandAll(words[1..], env)
  }

  function EqualsAt(s: string): (i: nat)
    ensures i <= |s|
  {
    if s == "" || s[0] == '=' then 0 else 1 + EqualsAt(s[1..])
  }

  /** `export name=value ...`. An argument without `=` changes no value. */
  function Export(args: seq<string>, env: Env): Option<Env> {
    if args == [] then Some(env)
    else
      var i := EqualsAt(args[0]);
      if !IsEnvName(args[0][..i]) then None
      else if i == |args[0]| then Export(args[1..], env)
      else Export(args[1..], env[args[0][..i] := args[0][i + 1..]])
  }

  /** A built-in's effect and whether it succeeds; None for any other command. */
  function Execute(argv: seq<string>, env: Env): Option<(Env, bool)> {
    if argv == [] then None
    else if argv[0] == "export" then
      match Export(argv[1..], env)
      case None => None
      case Some(env') => Some((env', true))
    else if |argv| == 4 && argv[0] == "[" && argv[1] == "-n" && argv[3] == "]" then
      Some((env, argv[2] != ""))
    else None
  }

  /** What follows a command: `&&` or `||` and the next, until the list ends. */
  function Continue(s: string, env: Env, ok: bool): Option<(Env, string)>
    decreases |s|
  {
    if s == "" then Some((env, ""))
    else if s[0] == ';' || s[0] == '\n' then Some((env, s[1..]))
    else if |s| >= 2 && (s[..2] == "||" || s[..2] == "&&") then
      match LexWords(s[2..])
      case None => None
      case Some((words, rest)) =>
        if words == [] then None
        else if ok == (s[0] == '|') then Continue(rest, env, ok)
        else match Execute(ExpandAll(words, env), env)
          case None => None
          case Some((env', ok')) => Continue(rest, env', ok')
    else None
  }

  /** One AND-OR list and the `;` or newline after it. */
  function RunList(s: string, env: Env): Option<(Env, string)> {
    match LexWords(s)
    case None => None
    case Some((words, rest)) =>
      match Execute(ExpandAll(words, env), env)
      case None => None
      case Some((env', ok)) => Continue(rest, env', ok)
  }

  /** The first n lists of the input: the environment they leave, and the
      input that remains. */
  function RunLists(n: nat, s: string, env: Env): Option<(Env, string)> {
    if n == 0 then Some((env, s))
    else match RunList(s, env)
      case None => None
      case Some((env', rest)) => RunLists(n - 1, rest, env')
  }

  // ---- the compiler ----

  function ForcedText(key: string, value: string): string {
    "export " + key + "=" + ShellQuote(value) + "; "
  }

  function GuardedText(key: string, value: string): string {
    "[ -n \"${" + key + ":-}\" ] || " + ForcedText(key, value)
  }

  function ForcedTexts(env: Entries): string {
    if env == [] then "" else ForcedText(env[0].0, env[0].1) + ForcedTexts(env[1..])
  }

  function GuardedTexts(defaults: Entries): string {
    if defaults == [] then "" else GuardedText(defaults[0].0, defaults[0].1) + GuardedTexts(defaults[1..])
  }

  predicate ValidNames(entries: Entries) {
    forall i :: 0 <= i < |entries| ==> IsEnvName(entries[i].0)
  }

  /** The prefixed command; None for the exception an invalid name raises. */
  function WithEnvPrefix(cmd: string, env: Entries, defaults: Entries): Option<string> {
    if ValidNames(env) && ValidNames(defaults) then Some(ForcedTexts(env) + GuardedTexts(defaults) + cmd)
    else None
  }

  // ---- what it should mean ----

  function Overlay(env: Env, forced: Entries): Env
    decreases |forced|
  {
    if forced == [] then env else Overlay(env[forced[0].0 := forced[0].1], forced[1..])
  }

  function WithDefault(env: Env, key: string, value: string): Env {
    if ValueOf(env, key) != "" then env else env[key := value]
  }

  function WithDefaults(env: Env, defaults: Entries): Env
    decreases |defaults|
  {
    if defaults == [] then env
    else WithDefaults(WithDefault(env, defaults[0].0, defaults[0].1), defaults[1..])
  }

  // ---- proofs ----

  lemma {:induction false} ExpandFirst(c: char, more: Word, env: Env)
    ensures Expand([Lit(c)] + more, env) == [c] + Expand(more, env)
  {
    assert ([Lit(c)] + more)[1..] == more;
  }

  lemma {:induction false} ExpandLits(v: string, more: Word, env: Env)
    ensures Expand(Lits(v) + more, env) == v + Expand(more, env)
  {
    if v == "" {
      assert Lits(v) + more == more;
    } else {
      assert Lits(v) + more == [Lit(v[0])] + (Lits(v[1..]) + more);
      ExpandFirst(v[0], Lits(v[1..]) + more, env);
      hide Lits, Expand;
      ExpandLits(v[1..], more, env);
      Regroup([v[0]], v[1..], Expand(more, env));
      assert [v[0]] + v[1..] == v;
    }
  }

  lemma {:induction false} ExpandValue(v: string, env: Env)
    ensures Expand(Lits(v), env) == v
  {
    ExpandLits(v, [], env);
    assert Lits(v) + [] == Lits(v) && v + "" == v;
  }

  /** The words of a quoted command reach it unchanged. */
  lemma {:induction false} ExpandLitWords(argv: seq<string>, env: Env)
    ensures ExpandAll(LitWords(argv), env) == argv
  {
    if argv != [] {
      ExpandValue(argv[0], env);
      ExpandLitWords(argv[1..], env);
    }
  }

  lemma {:induction false} NameIsPlain(name: string)
    requires IsEnvName(name)
    ensures forall i :: 0 <= i < |name| ==> IsPlain(name[i])
    ensures EqualsAt(name) == |name|
  {
    EqualsAfter(name);
  }

  lemma {:induction false} EqualsAfter(name: string)
    requires forall i :: 0 <= i < |name| ==> IsNameChar(name[i])
    ensures EqualsAt(name) == |name|
  {
    if name != "" {
      EqualsAfter(name[1..]);
    }
  }

  lemma {:induction false} EqualsBetween(name: string, value: string)
    requires forall i :: 0 <= i < |name| ==> IsNameChar(name[i])
    ensures EqualsAt(name + "=" + value) == |name|
  {
    if name == "" {
      assert name + "=" + value == "=" + value;
    } else {
      assert (name + "=" + value)[1..] == name[1..] + "=" + value;
      EqualsBetween(name[1..], value);
    }
  }

  /** `K='v'` is one word, an assignment of that value. */
  lemma {:induction false} AssignmentSpells(key: string, value: string)
    requires IsEnvName(key)
    ensures Spells(key + "=" + ShellQuote(value), key + "=" + value)
  {
    hide LexWord, ShellQuote;
    var text := key + "=" + ShellQuote(value);
    NameIsPlain(key);
    assert !IsDelimiter(text[0]);
    forall rest | Delimited(rest) ensures LexWord(text + rest) == Some((Lits(key + "=" + value), rest)) {
      Regroup(key + "=", ShellQuote(value), rest);
      PlainInverted(key + "=", ShellQuote(value) + rest);
      QuoteIsOneWord(value, rest);
      LitsAppend(key + "=", value);
    }
  }

  lemma {:induction false} LitsAppend(a: string, b: string)
    ensures Lits(a + b) == Lits(a) + Lits(b)
  {
    if a == "" {
      assert a + b == b && [] + Lits(b) == Lits(b);
    } else {
      assert (a + b)[1..] == a[1..] + b;
      LitsAppend(a[1..], b);
      Regroup([Lit(a[0])], Lits(a[1..]), Lits(b));
    }
  }

  /** The words of one forced export. */
  lemma {:induction false} ExportWords(key: string, value: string, rest: string)
    requires IsEnvName(key)
    ensures LexWords(ForcedText(key, value) + rest) ==
            Some((LitWords(["export", key + "=" + value]), "; " + rest))
  {
    hide LexWord, LexWords, ShellQuote, IsPlain;
    var assignment := key + "=" + ShellQuote(value);
    var parts, argv := ["export", assignment], ["export", key + "=" + value];
    PlainExport();
    AssignmentSpells(key, value);
    JoinedWords(parts, argv, "; " + rest);
    hide Spells;
    JoinedExport(key, ShellQuote(value));
    Regroup("export " + key + "=" + ShellQuote(value), "; ", rest);
  }

  lemma {:induction false} JoinedExport(key: string, quoted: string)
    ensures Text.Join(["export", key + "=" + quoted], ' ') == "export " + key + "=" + quoted
  {
    var parts := ["export", key + "=" + quoted];
    assert parts[1..] == [key + "=" + quoted];
    assert "export" + " " + (key + "=" + quoted) == "export " + key + "=" + quoted;
  }

  lemma {:induction false} PlainExport()
    ensures Spells("export", "export") && Spells("[", "[") && Spells("-n", "-n") && Spells("]", "]")
  {
    PlainSpells("export");
    PlainSpells("[");
    PlainSpells("-n");
    PlainSpells("]");
  }

  lemma {:induction false} ExportExecutes(key: string, value: string, env: Env)
    requires IsEnvName(key)
    ensures Execute(["export", key + "=" + value], env) == Some((env[key := value], true))
  {
    var argv, arg := ["export", key + "=" + value], key + "=" + value;
    var none: seq<string> := [];
    assert argv[1..] == [arg] && [arg][1..] == none;
    EqualsBetween(key, value);
    assert arg[..|key|] == key && arg[|key| + 1..] == value;
    assert Export(none, env[key := value]) == Some(env[key := value]);
  }

  lemma {:induction false} RunForced(lead: string, key: string, value: string, rest: string, env: Env)
    requires IsEnvName(key) && (lead == "" || lead == " ")
    ensures RunList(lead + ForcedText(key, value) + rest, env) == Some((env[key := value], " " + rest))
  {
    hide LexWords, ForcedText, LexWord, Execute, IsEnvName;
    var text := ForcedText(key, value) + rest;
    Lead(lead, ForcedText(key, value), rest);
    ExportWords(key, value, rest);
    ExpandLitWords(["export", key + "=" + value], env);
    ExportExecutes(key, value, env);
    assert ("; " + rest)[1..] == " " + rest;
  }

  lemma {:induction false} Lead(lead: string, text: string, rest: string)
    requires lead == "" || lead == " "
    ensures LexWords(lead + text + rest) == LexWords(text + rest)
  {
    hide LexWords;
    if lead == "" {
      assert lead + text + rest == text + rest;
    } else {
      BlankSkipped(text + rest);
      Regroup(lead, text, rest);
    }
  }

  /** `"${K:-}"` is one word, whatever its value. */
  lemma {:induction false} GuardWord(key: string, rest: string)
    requires IsEnvName(key) && Delimited(rest)
    ensures LexWord("\"${" + key + ":-}\"" + rest) == Some(([OrEmpty(key)], rest))
  {
    hide LexDouble, IsEnvName;
    QuoteCloses(rest);
    GuardInside(key, "\"" + rest);
    assert ("\"${" + key + ":-}\"" + rest)[1..] == "${" + key + (":-}" + ("\"" + rest));
    assert [OrEmpty(key)] + [] == [OrEmpty(key)];
  }

  lemma {:induction false} QuoteCloses(rest: string)
    requires Delimited(rest)
    ensures LexDouble("\"" + rest) == Some(([], rest))
  {
    assert ("\"" + rest)[1..] == rest;
  }

  lemma {:induction false} GuardInside(key: string, rest: string)
    requires IsEnvName(key)
    ensures LexDouble("${" + key + (":-}" + rest)) == Then(OrEmpty(key), LexDouble(rest))
  {
    hide LexWord, Then;
    var n, inner := |key|, "${" + key + (":-}" + rest);
    assert inner[2..] == key + (":-}" + rest);
    SpanOfName(key, ":-}" + rest);
    assert inner[2..2 + n] == key && inner[2 + n..n + 5] == ":-}" && inner[n + 5..] == rest;
  }

  lemma {:induction false} SpanOfName(name: string, rest: string)
    requires forall i :: 0 <= i < |name| ==> IsNameChar(name[i])
    requires rest != "" && !IsNameChar(rest[0])
    ensures NameSpan(name + rest) == |name|
  {
    if name == "" {
      assert name + rest == rest;
    } else {
      assert (name + rest)[1..] == name[1..] + rest;
      SpanOfName(name[1..], rest);
    }
  }

  /** The words of the test that guards a default. */
  lemma {:induction false} TestWords(key: string, end: string)
    requires IsEnvName(key) && end != "" && end[0] == '|'
    ensures LexWords("[ -n \"${" + key + ":-}\" ] " + end) ==
            Some(([Lits("["), Lits("-n"), [OrEmpty(key)], Lits("]")], end))
  {
    hide LexWord, LexWords, IsPlain, IsEnvName, Lits, Spells;
    PlainExport();
    var s3 := "\"${" + key + ":-}\"" + (" " + ("] " + end));
    var s2 := "-n" + (" " + s3);
    GuardedWords(key, end);
    BlankSkipped(s3);
    FirstWord("-n", "-n", " " + s3, [[OrEmpty(key)], Lits("]")], end);
    BlankSkipped(s2);
    FirstWord("[", "[", " " + s2, [Lits("-n")] + [[OrEmpty(key)], Lits("]")], end);
    TestText(key, end);
    assert [Lits("[")] + ([Lits("-n")] + [[OrEmpty(key)], Lits("]")])
           == [Lits("["), Lits("-n"), [OrEmpty(key)], Lits("]")];
  }

  lemma {:induction false} TestText(key: string, end: string)
    ensures "[ -n \"${" + key + ":-}\" ] " + end
         == "[" + (" " + ("-n" + (" " + ("\"${" + key + ":-}\"" + (" " + ("] " + end))))))
  {
  }

  lemma {:induction false} GuardedWords(key: string, end: string)
    requires IsEnvName(key) && end != "" && end[0] == '|'
    ensures LexWords("\"${" + key + ":-}\"" + (" " + ("] " + end))) ==
            Some(([[OrEmpty(key)], Lits("]")], end))
  {
    hide LexWord, IsPlain, IsEnvName, Lits;
    var quoted, last := "\"${" + key + ":-}\"", "] " + end;
    LastWord(end);
    GuardWord(key, " " + last);
    BlankSkipped(last);
    assert (quoted + (" " + last))[0] == '"';
    assert [[OrEmpty(key)]] + [Lits("]")] == [[OrEmpty(key)], Lits("]")];
  }

  lemma {:induction false} LastWord(end: string)
    requires end != "" && end[0] == '|'
    ensures LexWords("] " + end) == Some(([Lits("]")], end))
  {
    hide LexWord, IsPlain;
    PlainExport();
    assert SkipBlanks(end) == end;
    assert LexWords(end) == Some(([], end));
    BlankSkipped(end);
    FirstWord("]", "]", " " + end, [], end);
    assert "]" + (" " + end) == "] " + end;
    assert [Lits("]")] + [] == [Lits("]")];
  }

  lemma {:induction false} TestExecutes(key: string, env: Env)
    ensures Execute(ExpandAll([Lits("["), Lits("-n"), [OrEmpty(key)], Lits("]")], env), env)
            == Some((env, ValueOf(env, key) != ""))
  {
    hide Execute, Lits, Expand, ExpandAll;
    ExpandValue("[", env);
    ExpandValue("-n", env);
    ExpandValue("]", env);
    ExpandOrEmpty(key, env);
    ExpandFour(Lits("["), Lits("-n"), [OrEmpty(key)], Lits("]"), env);
    TestIs(ValueOf(env, key), env);
  }

  lemma {:induction false} ExpandOrEmpty(key: string, env: Env)
    ensures Expand([OrEmpty(key)], env) == ValueOf(env, key)
  {
    assert [OrEmpty(key)][1..] == [];
    assert ValueOf(env, key) + "" == ValueOf(env, key);
  }

  lemma {:induction false} ExpandFour(a: Word, b: Word, c: Word, d: Word, env: Env)
    ensures ExpandAll([a, b, c, d], env) == [Expand(a, env), Expand(b, env), Expand(c, env), Expand(d, env)]
  {
    hide Expand;
    assert [a, b, c, d] == [a] + [b, c, d] && [b, c, d] == [b] + [c, d] && [c, d] == [c] + [d];
    ExpandCons(a, [b, c, d], env);
    ExpandCons(b, [c, d], env);
    ExpandCons(c, [d], env);
  }

  lemma {:induction false} TestIs(value: string, env: Env)
    ensures Execute(["[", "-n", value, "]"], env) == Some((env, value != ""))
  {
    assert "["[0] != "export"[0];
  }

  lemma {:induction false} ExpandCons(word: Word, words: seq<Word>, env: Env)
    ensures ExpandAll([word] + words, env) == [Expand(word, env)] + ExpandAll(words, env)
  {
    assert ([word] + words)[1..] == words;
  }

  lemma {:induction false} RunGuarded(lead: string, key: string, value: string, rest: string, env: Env)
    requires IsEnvName(key) && (lead == "" || lead == " ")
    ensures RunList(lead + GuardedText(key, value) + rest, env) == Some((WithDefault(env, key, value), " " + rest))
  {
    hide LexWords, ForcedText, LexWord, Execute, IsEnvName;
    var guard, forced := "[ -n \"${" + key + ":-}\" ] ", ForcedText(key, value) + rest;
    var end := "|| " + forced;
    Lead(lead, GuardedText(key, value), rest);
    assert GuardedText(key, value) + rest == guard + end by {
      Regroup("[ -n \"${" + key + ":-}\" ] || ", ForcedText(key, value), rest);
      assert "[ -n \"${" + key + ":-}\" ] || " == guard + "|| ";
      Regroup(guard, "|| ", forced);
    }
    TestWords(key, end);
    TestExecutes(key, env);
    ContinueOr(key, value, rest, env, ValueOf(env, key) != "");
  }

  /** After the test: the export runs exactly when it failed. */
  lemma {:induction false} ContinueOr(key: string, value: string, rest: string, env: Env, ok: bool)
    requires IsEnvName(key)
    ensures Continue("|| " + (ForcedText(key, value) + rest), env, ok) ==
            Some((if ok then env else env[key := value], " " + rest))
  {
    hide LexWords, ForcedText, LexWord, Execute, IsEnvName;
    var forced := ForcedText(key, value) + rest;
    var end, argv := "|| " + forced, ["export", key + "=" + value];
    assert end[..2] == "||" && end[2..] == " " + forced;
    BlankSkipped(forced);
    ExportWords(key, value, rest);
    ExpandLitWords(argv, env);
    ExportExecutes(key, value, env);
    Ends(rest, env, true);
    assert |LitWords(argv)| > 0;
  }

  lemma {:induction false} Ends(rest: string, env: Env, ok: bool)
    ensures Continue("; " + rest, env, ok) == Some((env, " " + rest))
  {
    assert ("; " + rest)[1..] == " " + rest;
  }

  lemma {:induction false} RunAllForced(lead: string, forced: Entries, rest: string, env: Env)
    requires ValidNames(forced) && (lead == "" || lead == " ")
    ensures RunLists(|forced|, lead + ForcedTexts(forced) + rest, env) ==
            Some((Overlay(env, forced), (if forced == [] then lead else " ") + rest))
    decreases |forced|
  {
    hide RunList, ForcedText, IsEnvName;
    if forced == [] {
      assert lead + "" + rest == lead + rest;
    } else {
      var (key, value) := forced[0];
      var more := ForcedTexts(forced[1..]) + rest;
      Split(lead, ForcedText(key, value), ForcedTexts(forced[1..]), rest);
      RunForced(lead, key, value, more, env);
      assert ValidNames(forced[1..]);
      RunAllForced(" ", forced[1..], rest, env[key := value]);
      Regroup(" ", ForcedTexts(forced[1..]), rest);
    }
  }

  lemma {:induction false} Split(lead: string, first: string, others: string, rest: string)
    ensures lead + (first + others) + rest == lead + first + (others + rest)
  {
  }

  lemma {:induction false} RunAllGuarded(lead: string, defaults: Entries, rest: string, env: Env)
    requires ValidNames(defaults) && (lead == "" || lead == " ")
    ensures RunLists(|defaults|, lead + GuardedTexts(defaults) + rest, env) ==
            Some((WithDefaults(env, defaults), (if defaults == [] then lead else " ") + rest))
    decreases |defaults|
  {
    hide RunList, GuardedText, IsEnvName, WithDefault;
    if defaults == [] {
      assert lead + "" + rest == lead + rest;
    } else {
      var (key, value) := defaults[0];
      var more := GuardedTexts(defaults[1..]) + rest;
      Split(lead, GuardedText(key, value), GuardedTexts(defaults[1..]), rest);
      RunGuarded(lead, key, value, more, env);
      assert ValidNames(defaults[1..]);
      RunAllGuarded(" ", defaults[1..], rest, WithDefault(env, key, value));
      Regroup(" ", GuardedTexts(defaults[1..]), rest);
    }
  }

  lemma {:induction false} RunListsAdd(m: nat, n: nat, s: string, env: Env)
    requires RunLists(m, s, env).Some?
    ensures RunLists(m + n, s, env) == RunLists(n, RunLists(m, s, env).value.1, RunLists(m, s, env).value.0)
    decreases m
  {
    hide RunList;
    if m > 0 {
      var (env', rest) := RunList(s, env).value;
      RunListsAdd(m - 1, n, rest, env');
    }
  }

  /** What the prefix does: run its lists in any environment, and the forced
      values are in place, then the defaults, and the command is the input that
      is left. An invalid name gives no text at all. */
  lemma {:induction false} PrefixMeaning(cmd: string, forced: Entries, defaults: Entries, env: Env)
    ensures WithEnvPrefix(cmd, forced, defaults) == None <==> !(ValidNames(forced) && ValidNames(defaults))
    ensures ValidNames(forced) && ValidNames(defaults) ==>
            RunLists(|forced| + |defaults|, WithEnvPrefix(cmd, forced, defaults).value, env) ==
            Some((WithDefaults(Overlay(env, forced), defaults), (if forced + defaults == [] then "" else " ") + cmd))
  {
    if ValidNames(forced) && ValidNames(defaults) {
      PrefixRuns("", cmd, forced, defaults, env);
      assert "" + ForcedTexts(forced) == ForcedTexts(forced);
    }
  }

  lemma {:induction false} PrefixRuns(lead: string, cmd: string, forced: Entries, defaults: Entries, env: Env)
    requires ValidNames(forced) && ValidNames(defaults) && (lead == "" || lead == " ")
    ensures RunLists(|forced| + |defaults|, lead + ForcedTexts(forced) + GuardedTexts(defaults) + cmd, env) ==
            Some((WithDefaults(Overlay(env, forced), defaults), (if forced + defaults == [] then lead else " ") + cmd))
  {
    hide RunLists, ForcedTexts, GuardedTexts, WithDefaults, Overlay, ValidNames;
    var lead' := if forced == [] then lead else " ";
    Regroup(lead + ForcedTexts(forced), GuardedTexts(defaults), cmd);
    RunAllForced(lead, forced, GuardedTexts(defaults) + cmd, env);
    RunListsAdd(|forced|, |defaults|, lead + ForcedTexts(forced) + (GuardedTexts(defaults) + cmd), env);
    Regroup(lead', GuardedTexts(defaults), cmd);
    RunAllGuarded(lead', defaults, cmd, Overlay(env, forced));
  }

  // ---- name by name ----

  predicate DistinctKeys(entries: Entries) {
    forall i, j :: 0 <= i < j < |entries| ==> entries[i].0 != entries[j].0
  }

  function Lookup(entries: Entries, key: string): Option<string> {
    if entries == [] then None
    else if entries[0].0 == key then Some(entries[0].1)
    else Lookup(entries[1..], key)
  }

  function Get(env: Env, name: string): Option<string> {
    if name in env then Some(env[name]) else None
  }

  lemma {:induction false} LookupAbsent(entries: Entries, key: string)
    requires forall i :: 0 <= i < |entries| ==> entries[i].0 != key
    ensures Lookup(entries, key) == None
  {
    if entries != [] {
      LookupAbsent(entries[1..], key);
    }
  }

  lemma {:induction false} OverlayAt(env: Env, forced: Entries, name: string)
    requires DistinctKeys(forced)
    ensures Get(Overlay(env, forced), name) == OrElse(Lookup(forced, name), Get(env, name))
    decreases |forced|
  {
    if forced != [] {
      OverlayAt(env[forced[0].0 := forced[0].1], forced[1..], name);
      if forced[0].0 == name {
        LookupAbsent(forced[1..], name);
      }
    }
  }

  lemma {:induction false} DefaultsAt(env: Env, defaults: Entries, name: string)
    requires DistinctKeys(defaults)
    ensures Get(WithDefaults(env, defaults), name) ==
            if ValueOf(env, name) != "" then Get(env, name) else OrElse(Lookup(defaults, name), Get(env, name))
    decreases |defaults|
  {
    if defaults != [] {
      DefaultsAt(WithDefault(env, defaults[0].0, defaults[0].1), defaults[1..], name);
      if defaults[0].0 == name {
        LookupAbsent(defaults[1..], name);
      }
    }
  }

  /** The environment the command sees: a forced value where there is one, then
      a default exactly where the value is unset or empty, and every other
      variable of the image as it was. */
  lemma {:induction false} PrefixEffect(forced: Entries, defaults: Entries, env: Env, name: string)
    requires DistinctKeys(forced) && DistinctKeys(defaults)
    ensures var set' := OrElse(Lookup(forced, name), Get(env, name));
            Get(WithDefaults(Overlay(env, forced), defaults), name) ==
            if set' == None || set' == Some("") then OrElse(Lookup(defaults, name), set') else set'
  {
    OverlayAt(env, forced, name);
    DefaultsAt(Overlay(env, forced), defaults, name);
  }

  /** The comment on withEnvPrefix says a key in both maps resolves to the
      forced value. It does exactly when that value is not empty, or the default
      is the same. */
  lemma {:induction false} ForcedWinsExactly(forced: Entries, defaults: Entries, env: Env, name: string)
    requires DistinctKeys(forced) && DistinctKeys(defaults)
    requires Lookup(forced, name).Some? && Lookup(defaults, name).Some?
    ensures Get(WithDefaults(Overlay(env, forced), defaults), name) == Lookup(forced, name)
            <==> Lookup(forced, name).value != "" || Lookup(defaults, name).value == ""
  {
    PrefixEffect(forced, defaults, env, name);
  }

  /** A forced empty value that the command does not see. */
  lemma {:induction false} ForcedEmptyLoses()
    ensures Get(WithDefaults(Overlay(map[], [("K", "")]), [("K", "d")]), "K") == Some("d")
  {
    var forced, defaults: Entries := [("K", "")], [("K", "d")];
    assert Lookup(forced, "K") == Some("") && Lookup(defaults, "K") == Some("d");
    PrefixEffect(forced, defaults, map[], "K");
  }

  // ---- the command of a process ----

  /** What startProcess runs: the process's own variables nearest the command. */
  function ProcessCommand(cmd: string, own: Entries, forced: Entries, defaults: Entries): Option<string> {
    match WithEnvPrefix(cmd, own, [])
    case None => None
    case Some(inner) => WithEnvPrefix(inner, forced, defaults)
  }

  /** Running that text: the sandbox's variables, then the process's over them,
      and the command is the input that is left. */
  lemma {:induction false} ProcessMeaning(cmd: string, own: Entries, forced: Entries, defaults: Entries, env: Env)
    ensures ProcessCommand(cmd, own, forced, defaults) == None
            <==> !(ValidNames(own) && ValidNames(forced) && ValidNames(defaults))
    ensures ValidNames(own) && ValidNames(forced) && ValidNames(defaults) ==>
            RunLists(|forced| + |defaults| + |own|, ProcessCommand(cmd, own, forced, defaults).value, env) ==
            Some((Overlay(WithDefaults(Overlay(env, forced), defaults), own),
                  (if forced + defaults + own == [] then "" else " ") + cmd))
  {
    hide RunLists, ForcedTexts, Overlay, WithDefaults, ValidNames;
    if ValidNames(own) && ValidNames(forced) && ValidNames(defaults) {
      var none: Entries := [];
      NoneIsValid();
      var inner := WithEnvPrefix(cmd, own, none).value;
      assert inner == ForcedTexts(own) + cmd by {
        assert GuardedTexts(none) == "";
        assert ForcedTexts(own) + "" == ForcedTexts(own);
      }
      var lead := if forced + defaults == [] then "" else " ";
      PrefixMeaning(inner, forced, defaults, env);
      RunListsAdd(|forced| + |defaults|, |own|, WithEnvPrefix(inner, forced, defaults).value, env);
      Regroup(lead, ForcedTexts(own), cmd);
      RunAllForced(lead, own, cmd, WithDefaults(Overlay(env, forced), defaults));
    } else {
      NoneIsValid();
    }
  }

  lemma {:induction false} NoneIsValid()
    ensures ValidNames([])
  {
  }

  /** A process's own value wins over both, an empty one included. */
  lemma {:induction false} OwnValueWins(own: Entries, forced: Entries, defaults: Entries, env: Env, name: string)
    requires DistinctKeys(own) && DistinctKeys(forced) && DistinctKeys(defaults)
    ensures Get(Overlay(WithDefaults(Overlay(env, forced), defaults), own), name) ==
            OrElse(Lookup(own, name), Get(WithDefaults(Overlay(env, forced), defaults), name))
  {
    OverlayAt(WithDefaults(Overlay(env, forced), defaults), own, name);
  }

  // ---- the variables a sandbox has accumulated ----

  /** Set one key of an object: in place when it is there, at the end when not. */
  function Put(entries: Entries, key: string, value: string): (r: Entries)
    ensures forall i :: 0 <= i < |r| ==> r[i].0 == key || exists j :: 0 <= j < |entries| && entries[j].0 == r[i].0
  {
    if entries == [] then [(key, value)]
    else if entries[0].0 == key then [(key, value)] + entries[1..]
    else [entries[0]] + Put(entries[1..], key, value)
  }

  /** `{ ...a, ...b }` */
  function Merge(a: Entries, b: Entries): Entries
    decreases |b|
  {
    if b == [] then a else Merge(Put(a, b[0].0, b[0].1), b[1..])
  }

  lemma {:induction false} PutLookup(entries: Entries, key: string, value: string, name: string)
    ensures Lookup(Put(entries, key, value), name) == if name == key then Some(value) else Lookup(entries, name)
  {
    if entries != [] {
      var put := Put(entries, key, value);
      if entries[0].0 == key {
        assert put[1..] == entries[1..];
      } else {
        assert put[1..] == Put(entries[1..], key, value);
        PutLookup(entries[1..], key, value, name);
      }
    }
  }

  lemma {:induction false} PutKeeps(entries: Entries, key: string, value: string)
    requires ValidNames(entries) && DistinctKeys(entries) && IsEnvName(key)
    ensures ValidNames(Put(entries, key, value)) && DistinctKeys(Put(entries, key, value))
  {
    hide IsEnvName;
    if entries != [] && entries[0].0 != key {
      PutKeeps(entries[1..], key, value);
    }
  }

  lemma {:induction false} MergeAt(a: Entries, b: Entries, name: string)
    requires DistinctKeys(b)
    ensures Lookup(Merge(a, b), name) == OrElse(Lookup(b, name), Lookup(a, name))
    decreases |b|
  {
    if b != [] {
      MergeAt(Put(a, b[0].0, b[0].1), b[1..], name);
      PutLookup(a, b[0].0, b[0].1, name);
      if b[0].0 == name {
        LookupAbsent(b[1..], name);
      }
    }
  }

  lemma {:induction false} MergeKeeps(a: Entries, b: Entries)
    requires ValidNames(a) && DistinctKeys(a) && ValidNames(b)
    ensures ValidNames(Merge(a, b)) && DistinctKeys(Merge(a, b))
    decreases |b|
  {
    hide IsEnvName;
    if b != [] {
      PutKeeps(a, b[0].0, b[0].1);
      MergeKeeps(Put(a, b[0].0, b[0].1), b[1..]);
    }
  }

  /** `entries[key] = value`, to which no key of `__proto__` comes. */
  function Assigned(entries: Entries, key: string, value: string): Entries {
    if key == "__proto__" then entries else Put(entries, key, value)
  }

  /** The options of one process with the undefined values skipped. */
  function Defined(options: seq<(string, Option<string>)>): Entries {
    if options == [] then []
    else
      var before := Defined(options[..|options| - 1]);
      match options[|options| - 1].1
      case None => before
      case Some(value) => Assigned(before, options[|options| - 1].0, value)
  }

  lemma {:induction false} DefinedNext(options: seq<(string, Option<string>)>, i: nat)
    requires i < |options|
    ensures Defined(options[..i + 1]) == match options[i].1
                                         case None => Defined(options[..i])
                                         case Some(value) => Assigned(Defined(options[..i]), options[i].0, value)
  {
    assert options[..i + 1][..i] == options[..i];
  }

  /** No option is named twice. */
  predicate DistinctOptions(options: seq<(string, Option<string>)>) {
    forall i, j :: 0 <= i < j < |options| ==> options[i].0 != options[j].0
  }

  /** The value an option gives its name. */
  predicate Gives(options: seq<(string, Option<string>)>, name: string, value: string) {
    name != "__proto__" && (name, Some(value)) in options
  }

  lemma {:induction false} AssignedLookup(entries: Entries, key: string, value: string, name: string)
    ensures Lookup(Assigned(entries, key, value), name) ==
            if name == key && key != "__proto__" then Some(value) else Lookup(entries, name)
  {
    PutLookup(entries, key, value, name);
  }

  lemma {:induction false} PutDistinct(entries: Entries, key: string, value: string)
    requires DistinctKeys(entries)
    ensures DistinctKeys(Put(entries, key, value))
  {
    if entries != [] && entries[0].0 != key {
      PutDistinct(entries[1..], key, value);
    }
  }

  /** Defined holds exactly what the options give. */
  lemma {:induction false} DefinedGives(options: seq<(string, Option<string>)>, name: string)
    requires DistinctOptions(options)
    ensures DistinctKeys(Defined(options))
    ensures forall value :: Gives(options, name, value) <==> Lookup(Defined(options), name) == Some(value)
    decreases |options|
  {
    hide Lookup, Put, Assigned, DistinctKeys;
    if options == [] {
      NoneDefined(name);
    } else {
      var n := |options| - 1;
      var before, key, given := options[..n], options[n].0, options[n].1;
      DefinedGives(before, name);
      assert options == before + [(key, given)];
      NotGiven(before, key);
      if given.Some? {
        AssignedLookup(Defined(before), key, given.value, name);
        AssignedDistinct(Defined(before), key, given.value);
      }
    }
  }

  lemma {:induction false} NoneDefined(name: string)
    ensures DistinctKeys([]) && Lookup([], name) == None
  {
  }

  lemma {:induction false} NotGiven(options: seq<(string, Option<string>)>, key: string)
    requires forall i :: 0 <= i < |options| ==> options[i].0 != key
    ensures forall value :: !Gives(options, key, value)
  {
  }

  lemma {:induction false} AssignedDistinct(entries: Entries, key: string, value: string)
    requires DistinctKeys(entries)
    ensures DistinctKeys(Assigned(entries, key, value))
  {
    PutDistinct(entries, key, value);
  }

  /** Only an option that gives a value can have a name that is refused. */
  lemma {:induction false} GivenNames(options: seq<(string, Option<string>)>)
    requires DistinctOptions(options)
    ensures ValidNames(Defined(options)) <==> forall name, value :: Gives(options, name, value) ==> IsEnvName(name)
  {
    hide IsEnvName, Gives, Defined, DistinctKeys;
    var entries := Defined(options);
    forall name, value | Gives(options, name, value) ensures exists i :: 0 <= i < |entries| && entries[i].0 == name {
      DefinedGives(options, name);
      LookupFound(entries, name);
    }
    forall i | 0 <= i < |entries| ensures exists value :: Gives(options, entries[i].0, value) {
      DefinedGives(options, entries[i].0);
      LookupHas(entries, i);
      assert Gives(options, entries[i].0, Lookup(entries, entries[i].0).value);
    }
  }

  lemma {:induction false} LookupFound(entries: Entries, key: string)
    requires Lookup(entries, key).Some?
    ensures exists i :: 0 <= i < |entries| && entries[i].0 == key
  {
    if forall i :: 0 <= i < |entries| ==> entries[i].0 != key {
      LookupAbsent(entries, key);
    }
  }

  lemma {:induction false} LookupHas(entries: Entries, i: nat)
    requires i < |entries|
    ensures Lookup(entries, entries[i].0).Some?
  {
    if i > 0 {
      LookupHas(entries[1..], i - 1);
    }
  }

  /** Running the command of a process in an image: every option that gives a
      value has it, every other name is as the sandbox's own prefix leaves it,
      and the command is the input that is left. */
  ghost predicate RunsWith(
    command: string, cmd: string, options: seq<(string, Option<string>)>, forced: Entries, defaults: Entries, image: Env)
    requires WithEnvPrefix(cmd, forced, defaults).Some?
  {
    var sandbox := RunLists(|forced| + |defaults|, WithEnvPrefix(cmd, forced, defaults).value, image);
    var ran := RunLists(|forced| + |defaults| + |Defined(options)|, command, image);
    && sandbox.Some? && ran.Some? && (ran.value.1 == cmd || ran.value.1 == " " + cmd)
    && (forall name, value :: Gives(options, name, value) ==> Get(ran.value.0, name) == Some(value))
    && (forall name :: (forall value :: !Gives(options, name, value)) ==>
          Get(ran.value.0, name) == Get(sandbox.value.0, name))
  }

  lemma {:induction false} CommandRuns(
    cmd: string, options: seq<(string, Option<string>)>, forced: Entries, defaults: Entries, image: Env)
    requires DistinctOptions(options) && DistinctKeys(forced) && DistinctKeys(defaults)
    requires ValidNames(Defined(options)) && ValidNames(forced) && ValidNames(defaults)
    ensures ProcessCommand(cmd, Defined(options), forced, defaults).Some? && WithEnvPrefix(cmd, forced, defaults).Some?
    ensures RunsWith(ProcessCommand(cmd, Defined(options), forced, defaults).value, cmd, options, forced, defaults, image)
  {
    hide RunLists, ProcessCommand, WithEnvPrefix, Overlay, WithDefaults, Defined, Gives, Lookup, ValidNames;
    var own := Defined(options);
    ProcessMeaning(cmd, own, forced, defaults, image);
    PrefixMeaning(cmd, forced, defaults, image);
    var sandbox := WithDefaults(Overlay(image, forced), defaults);
    forall name
      ensures forall value :: Gives(options, name, value) ==> Get(Overlay(sandbox, own), name) == Some(value)
      ensures (forall value :: !Gives(options, name, value)) ==> Get(Overlay(sandbox, own), name) == Get(sandbox, name) {
      DefinedGives(options, name);
      OverlayAt(sandbox, own, name);
      if Lookup(own, name).Some? {
        assert Gives(options, name, Lookup(own, name).value);
      }
    }
    assert "" + cmd == cmd;
  }

  /** The env and envDefaults fields of a sandbox. */
  class Variables {
    var env: Entries
    var envDefaults: Entries

    /** Every accumulated name was checked when it was set, so no later command
        can fail on one. */
    ghost predicate Valid()
      reads this
    {
      ValidNames(env) && DistinctKeys(env) && ValidNames(envDefaults) && DistinctKeys(envDefaults)
    }

    constructor ()
      ensures Valid() && env == [] && envDefaults == []
    {
      env, envDefaults := [], [];
    }

    /** An invalid name changes nothing; otherwise the new values win in the map
        they go to, and the other map is untouched. */
    method SetEnvVars(vars: Entries, onlyIfUnset: bool) returns (ok: bool)
      requires Valid() && DistinctKeys(vars)
      modifies this
      ensures Valid()
      ensures ok <==> ValidNames(vars)
      ensures !ok ==> env == old(env) && envDefaults == old(envDefaults)
      ensures ok && onlyIfUnset ==> env == old(env) && envDefaults == Merge(old(envDefaults), vars)
      ensures ok && !onlyIfUnset ==> env == Merge(old(env), vars) && envDefaults == old(envDefaults)
      ensures ok ==> forall name ::
                Lookup(if onlyIfUnset then envDefaults else env, name) ==
                OrElse(Lookup(vars, name), Lookup(if onlyIfUnset then old(envDefaults) else old(env), name))
    {
      hide IsEnvName, Lookup, DistinctKeys;
      var i := 0;
      while i < |vars|
        invariant i <= |vars|
        invariant forall j :: 0 <= j < i ==> IsEnvName(vars[j].0)
      {
        if !IsEnvName(vars[i].0) { return false; }
        i := i + 1;
      }
      ghost var before := if onlyIfUnset then envDefaults else env;
      MergeKeeps(before, vars);
      forall name ensures Lookup(Merge(before, vars), name) == OrElse(Lookup(vars, name), Lookup(before, name)) {
        MergeAt(before, vars, name);
      }
      if onlyIfUnset {
        envDefaults := Merge(envDefaults, vars);
      } else {
        env := Merge(env, vars);
      }
      ok := true;
    }

    /** The command line of a new process: it can only fail on a name of the
        process's own. */
    method StartCommand(cmd: string, options: seq<(string, Option<string>)>) returns (command: Option<string>)
      requires Valid()
      ensures command == ProcessCommand(cmd, Defined(options), env, envDefaults)
      ensures DistinctOptions(options) ==>
                (command == None <==> exists name, value :: Gives(options, name, value) && !IsEnvName(name))
      ensures command.Some? && DistinctOptions(options) ==>
                && WithEnvPrefix(cmd, env, envDefaults).Some?
                && forall image :: RunsWith(command.value, cmd, options, env, envDefaults, image)
    {
      var processEnv: Entries := [];
      for i := 0 to |options|
        invariant processEnv == Defined(options[..i])
      {
        DefinedNext(options, i);
        if options[i].1.Some? {
          processEnv := Assigned(processEnv, options[i].0, options[i].1.value);
        }
      }
      assert options[..|options|] == options;
      ProcessMeaning(cmd, processEnv, env, envDefaults, map[]);
      command := ProcessCommand(cmd, processEnv, env, envDefaults);
      if DistinctOptions(options) {
        GivenNames(options);
      }
      if command.Some? && DistinctOptions(options) {
        forall image ensures RunsWith(command.value, cmd, options, env, envDefaults, image) {
          CommandRuns(cmd, options, env, envDefaults, image);
        }
        CommandRuns(cmd, options, env, envDefaults, map[]);
      }
    }
  }
}
