/**
 * A fragment of the POSIX.1-2017 Shell Command Language (XCU chapter 2): how a
 * shell cuts its input into words. Quoting follows sections 2.2.1 to 2.2.3,
 * token recognition 2.3, and the one expansion is `${NAME:-}` of 2.6.2 inside
 * double quotes. Anything else reads as None: it is outside the fragment.
 */
module Shell {
  import opened Common
  import opened Text

  /** One piece of a word: a literal character, or `${name:-}`. */
  datatype Part = Lit(c: char) | OrEmpty(name: string)

  type Word = seq<Part>

  predicate IsNameStart(c: char) {
    'A' <= c <= 'Z' || 'a' <= c <= 'z' || c == '_'
  }

  predicate IsNameChar(c: char) {
    IsNameStart(c) || '0' <= c <= '9'
  }

  /** The names `assertEnvName` accepts, which are the shell's. */
  predicate IsEnvName(name: string) {
    name != "" && IsNameStart(name[0]) && forall i :: 0 <= i < |name| ==> IsNameChar(name[i])
  }

  /** A letter or an underscore, then letters, digits and underscores. */
  lemma {:induction false} NamesExactly(name: string)
    ensures var first := LOWER_CASE + UPPER_CASE + "_";
            IsEnvName(name) <==>
              name != "" && name[0] in first && forall i :: 0 <= i < |name| ==> name[i] in first + DIGITS
  {
    forall c: char
      ensures IsNameStart(c) <==> c in LOWER_CASE + UPPER_CASE + "_"
      ensures IsNameChar(c) <==> c in LOWER_CASE + UPPER_CASE + "_" + DIGITS {
      AlphabetHas(c);
      hide LOWER_CASE, UPPER_CASE, DIGITS;
    }
    hide LOWER_CASE, UPPER_CASE, DIGITS, IsNameStart, IsNameChar;
  }

  predicate IsBlank(c: char) { c == ' ' || c == '\t' }

  /** Ends a word when it is not quoted: a blank, or the start of an operator. */
  predicate IsDelimiter(c: char) {
    IsBlank(c) || c == '\n' || c == ';' || c == '|' || c == '&' || c == '<' || c == '>' || c == '(' || c == ')'
  }

  predicate Delimited(rest: string) {
    rest == "" || IsDelimiter(rest[0])
  }

  /** Stands for itself in a word whatever is around it. */
  predicate IsPlain(c: char) {
    IsNameChar(c) || c == '=' || c == '-' || c == '[' || c == ']'
  }

  function NameSpan(s: string): (n: nat)
    ensures n <= |s|
  {
    if s != "" && IsNameChar(s[0]) then 1 + NameSpan(s[1..]) else 0
  }

  type Lexed = Option<(Word, string)>

  function Then(p: Part, r: Lexed): (r': Lexed)
    ensures r'.Some? <==> r.Some?
    ensures r.Some? ==> r'.value.1 == r.value.1
  {
    match r
    case None => None
    case Some((word, rest)) => Some(([p] + word, rest))
  }

  /** The rest of a word, unquoted here, and the input after it. */
  function LexWord(s: string): (r: Lexed)
    ensures r.Some? ==> |r.value.1| <= |s| && Delimited(r.value.1)
    decreases |s|
  {
    if s == "" || IsDelimiter(s[0]) then Some(([], s))
    else if s[0] == '\'' then LexSingle(s[1..])
    else if s[0] == '"' then LexDouble(s[1..])
    else if s[0] == '\\' then
      if |s| < 2 then None
      else if s[1] == '\n' then LexWord(s[2..])
      else Then(Lit(s[1]), LexWord(s[2..]))
    else if IsPlain(s[0]) || s[0] == '.' || s[0] == '/' || s[0] == ':' then Then(Lit(s[0]), LexWord(s[1..]))
    else None
  }

  /** Inside single quotes: everything up to the next one is itself. */
  function LexSingle(s: string): (r: Lexed)
    ensures r.Some? ==> |r.value.1| <= |s| && Delimited(r.value.1)
    decreases |s|
  {
    if s == "" then None
    else if s[0] == '\'' then LexWord(s[1..])
    else Then(Lit(s[0]), LexSingle(s[1..]))
  }

  /** Inside double quotes. */
  function LexDouble(s: string): (r: Lexed)
    ensures r.Some? ==> |r.value.1| <= |s| && Delimited(r.value.1)
    decreases |s|
  {
    if s == "" then None
    else if s[0] == '"' then LexWord(s[1..])
    else if s[0] == '$' then
      var n := if |s| >= 2 && s[1] == '{' then NameSpan(s[2..]) else 0;
      if n > 0 && IsNameStart(s[2]) && |s| >= n + 5 && s[2 + n..n + 5] == ":-}" then
        Then(OrEmpty(s[2..2 + n]), LexDouble(s[n + 5..]))
      else None
    else if s[0] == '`' then None
    else if s[0] == '\\' && |s| >= 2 && s[1] == '\n' then LexDouble(s[2..])
    else if s[0] == '\\' && |s| >= 2 && (s[1] == '$' || s[1] == '`' || s[1] == '"' || s[1] == '\\') then
      Then(Lit(s[1]), LexDouble(s[2..]))
    else Then(Lit(s[0]), LexDouble(s[1..]))
  }

  function SkipBlanks(s: string): (r: string)
    ensures |r| <= |s| && (r != "" ==> !IsBlank(r[0]))
  {
    if s != "" && IsBlank(s[0]) then SkipBlanks(s[1..]) else s
  }

  /** The words of a simple command, and the input from the operator that ends
      it. Redirections and parentheses are outside the fragment. */
  function LexWords(s: string): (r: Option<(seq<Word>, string)>)
    ensures r.Some? ==> |r.value.1| <= |s|
    ensures r.Some? && r.value.0 != [] ==> |r.value.1| < |s|
    decreases |s|
  {
    var t := SkipBlanks(s);
    if t == "" || t[0] == ';' || t[0] == '\n' || t[0] == '|' || t[0] == '&' then Some(([], t))
    else if IsDelimiter(t[0]) then None
    else match LexWord(t)
      case None => None
      case Some((word, rest)) =>
        if |rest| >= |t| then None
        else match LexWords(rest)
          case None => None
          case Some((words, last)) => Some(([word] + words, last))
  }

  /** A word of these characters and nothing to expand. */
  function Lits(v: string): Word {
    if v == "" then [] else [Lit(v[0])] + Lits(v[1..])
  }

  function ThenAll(v: string, r: Lexed): Lexed {
    match r
    case None => None
    case Some((word, rest)) => Some((Lits(v) + word, rest))
  }

  /** `value.replaceAll("'", "'\\''")`. */
  function ReplaceQuotes(v: string): string {
    if v == "" then "" else (if v[0] == '\'' then "'\\''" else [v[0]]) + ReplaceQuotes(v[1..])
  }

  function ShellQuote(v: string): string {
    "'" + ReplaceQuotes(v) + "'"
  }

  lemma {:induction false} ThenAllCons(v: string, r: Lexed)
    requires v != ""
    ensures ThenAll(v, r) == Then(Lit(v[0]), ThenAll(v[1..], r))
  {
    if r.Some? {
      Regroup([Lit(v[0])], Lits(v[1..]), r.value.0);
    }
  }

  /** The classic: out of the quotes, an escaped quote, and in again. */
  lemma {:induction false} EscapedQuote(more: string)
    ensures LexSingle("'\\''" + more) == Then(Lit('\''), LexSingle(more))
  {
    var s, s1, s2 := "'\\''" + more, "\\''" + more, "'" + more;
    assert s[1..] == s1 && s1[2..] == s2 && s2[1..] == more;
    assert LexWord(s2) == LexSingle(more);
    assert LexWord(s1) == Then(Lit('\''), LexWord(s2));
  }

  lemma {:induction false} ReplacedThenQuote(v: string, rest: string)
    ensures LexSingle(ReplaceQuotes(v) + "'" + rest) == ThenAll(v, LexWord(rest))
  {
    if v == "" {
      assert ReplaceQuotes(v) + "'" + rest == "'" + rest;
      assert ("'" + rest)[1..] == rest;
      assert LexWord(rest).Some? ==> Lits(v) + LexWord(rest).value.0 == LexWord(rest).value.0;
    } else {
      var more := ReplaceQuotes(v[1..]) + "'" + rest;
      ReplacedThenQuote(v[1..], rest);
      ThenAllCons(v, LexWord(rest));
      ReplacedFirst(v, rest);
      if v[0] == '\'' {
        EscapedQuote(more);
      } else {
        assert ([v[0]] + more)[1..] == more;
      }
    }
  }

  lemma {:induction false} ReplacedFirst(v: string, rest: string)
    requires v != ""
    ensures ReplaceQuotes(v) + "'" + rest ==
            (if v[0] == '\'' then "'\\''" else [v[0]]) + (ReplaceQuotes(v[1..]) + "'" + rest)
  {
    var first := if v[0] == '\'' then "'\\''" else [v[0]];
    Regroup(first, ReplaceQuotes(v[1..]), "'");
    Regroup(first, ReplaceQuotes(v[1..]) + "'", rest);
  }

  /**
   * Quoting is inverted by the shell in any context: whatever part of a word
   * came before, and whatever input follows, the quoted text adds exactly the
   * characters of the value to the word.
   */
  lemma {:induction false} QuoteInverted(v: string, rest: string)
    ensures LexWord(ShellQuote(v) + rest) == ThenAll(v, LexWord(rest))
  {
    var s := ShellQuote(v) + rest;
    assert s[1..] == ReplaceQuotes(v) + "'" + rest;
    ReplacedThenQuote(v, rest);
  }

  /** Followed by a delimiter, the quoted text is one word of that value. */
  lemma {:induction false} QuoteIsOneWord(v: string, rest: string)
    requires Delimited(rest)
    ensures LexWord(ShellQuote(v) + rest) == Some((Lits(v), rest))
  {
    QuoteInverted(v, rest);
    assert Lits(v) + [] == Lits(v);
  }

  lemma {:induction false} PlainInverted(v: string, rest: string)
    requires forall i :: 0 <= i < |v| ==> IsPlain(v[i])
    ensures LexWord(v + rest) == ThenAll(v, LexWord(rest))
  {
    if v == "" {
      assert v + rest == rest;
      assert LexWord(rest).Some? ==> Lits(v) + LexWord(rest).value.0 == LexWord(rest).value.0;
    } else {
      assert (v + rest)[1..] == v[1..] + rest;
      PlainInverted(v[1..], rest);
      ThenAllCons(v, LexWord(rest));
    }
  }

  function LitWords(argv: seq<string>): seq<Word> {
    if argv == [] then [] else [Lits(argv[0])] + LitWords(argv[1..])
  }

  /** The text is one word with this value wherever a word may start. */
  ghost predicate Spells(text: string, value: string) {
    && text != "" && !IsDelimiter(text[0])
    && forall rest :: Delimited(rest) ==> LexWord(text + rest) == Some((Lits(value), rest))
  }

  lemma {:induction false} QuoteSpells(v: string)
    ensures Spells(ShellQuote(v), v)
  {
    forall rest | Delimited(rest) ensures LexWord(ShellQuote(v) + rest) == Some((Lits(v), rest)) {
      QuoteIsOneWord(v, rest);
    }
  }

  lemma {:induction false} PlainSpells(v: string)
    requires v != "" && forall i :: 0 <= i < |v| ==> IsPlain(v[i])
    ensures Spells(v, v)
  {
    forall rest | Delimited(rest) ensures LexWord(v + rest) == Some((Lits(v), rest)) {
      PlainInverted(v, rest);
      assert Lits(v) + [] == Lits(v);
    }
  }

  /** Words joined by spaces are cut apart again, up to the operator or end. */
  lemma {:induction false} JoinedWords(parts: seq<string>, argv: seq<string>, end: string)
    requires |parts| == |argv| > 0 && forall i :: 0 <= i < |parts| ==> Spells(parts[i], argv[i])
    requires end == "" || end[0] == ';' || end[0] == '\n' || end[0] == '|' || end[0] == '&'
    ensures LexWords(Join(parts, ' ') + end) == Some((LitWords(argv), end))
    decreases |parts|
  {
    hide LexWord;
    if |parts| == 1 {
      FirstWord(parts[0], argv[0], end, [], end);
      assert LitWords(argv) == [Lits(argv[0])] + [];
    } else {
      var rest := " " + (Join(parts[1..], ' ') + end);
      assert Join(parts, ' ') + end == parts[0] + rest;
      JoinedWords(parts[1..], argv[1..], end);
      BlankSkipped(Join(parts[1..], ' ') + end);
      FirstWord(parts[0], argv[0], rest, LitWords(argv[1..]), end);
    }
  }

  lemma {:induction false} BlankSkipped(s: string)
    ensures SkipBlanks(" " + s) == SkipBlanks(s)
    ensures LexWords(" " + s) == LexWords(s)
  {
    assert (" " + s)[1..] == s;
  }

  lemma {:induction false} FirstWord(text: string, value: string, rest: string, words: seq<Word>, end: string)
    requires Spells(text, value) && Delimited(rest)
    requires LexWords(rest) == Some((words, end))
    ensures LexWords(text + rest) == Some(([Lits(value)] + words, end))
  {
    hide LexWord;
    assert !IsBlank((text + rest)[0]);
  }

  /** `git clone`, its arguments quoted. `None` is an option not given. */
  method GitCloneCommand(repo: string, branch: Option<string>, targetDir: Option<string>) returns (command: string)
    ensures LexWords(command) == Some((LitWords(GitCloneArgv(repo, branch, targetDir)), ""))
  {
    hide *;
    var target := if targetDir.Some? then targetDir.value else ".";
    var parts := ["git", "clone"];
    if branch.Some? {
      parts := parts + ["--branch", ShellQuote(branch.value)];
    }
    parts := parts + [ShellQuote(repo), ShellQuote(target)];
    command := Join(parts, ' ');
    CloneSpells(parts, repo, branch, targetDir);
    JoinedWords(parts, GitCloneArgv(repo, branch, targetDir), "");
    assert command + "" == command;
  }

  /** What the command is meant to run. */
  function GitCloneArgv(repo: string, branch: Option<string>, targetDir: Option<string>): seq<string> {
    ["git", "clone"] + (if branch.Some? then ["--branch", branch.value] else [])
    + [repo, if targetDir.Some? then targetDir.value else "."]
  }

  /** The options before the repository, and the target last, here by default. */
  lemma {:induction false} GitCloneArgvExactly(repo: string, branch: string, target: string)
    ensures GitCloneArgv(repo, None, None) == ["git", "clone", repo, "."]
    ensures GitCloneArgv(repo, Some(branch), None) == ["git", "clone", "--branch", branch, repo, "."]
    ensures GitCloneArgv(repo, None, Some(target)) == ["git", "clone", repo, target]
    ensures GitCloneArgv(repo, Some(branch), Some(target)) == ["git", "clone", "--branch", branch, repo, target]
  {
  }

  lemma {:induction false} CloneSpells(parts: seq<string>, repo: string, branch: Option<string>, targetDir: Option<string>)
    requires parts == ["git", "clone"] + (if branch.Some? then ["--branch", ShellQuote(branch.value)] else [])
                      + [ShellQuote(repo), ShellQuote(if targetDir.Some? then targetDir.value else ".")]
    ensures var argv := GitCloneArgv(repo, branch, targetDir);
            |parts| == |argv| >= 1 && forall k :: 0 <= k < |argv| ==> Spells(parts[k], argv[k])
  {
    hide Spells, ShellQuote, LexWords;
    PlainWords();
    QuoteSpells(repo);
    QuoteSpells(if targetDir.Some? then targetDir.value else ".");
    if branch.Some? {
      QuoteSpells(branch.value);
    }
  }

  lemma {:induction false} PlainWords()
    ensures Spells("git", "git") && Spells("clone", "clone") && Spells("--branch", "--branch")
  {
    PlainSpells("git");
    PlainSpells("clone");
    PlainSpells("--branch");
  }
}
