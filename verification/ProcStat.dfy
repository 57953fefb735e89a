/**
 * How PID 1 finds the zombies to collect: the stat lines of /proc, whose
 * command name may hold anything, spaces and parentheses included.
 */
module ProcStat {
  import opened Common
  import Decimal

  /** bytes.LastIndexByte; -1 when there is none. */
  function LastIndexOf(s: string, c: char): (i: int)
    ensures -1 <= i < |s|
  {
    if s == "" then -1
    else if s[|s| - 1] == c then |s| - 1
    else LastIndexOf(s[..|s| - 1], c)
  }

  predicate IsSpace(c: char) {
    c == ' ' || c == '\t' || c == '\n' || c == '\r' || c as int == 11 || c as int == 12
  }

  function FieldEnd(s: string): (n: nat)
    ensures n <= |s|
  {
    if s == "" || IsSpace(s[0]) then 0 else 1 + FieldEnd(s[1..])
  }

  /** bytes.Fields */
  function Fields(s: string): (fields: seq<string>)
    ensures forall i :: 0 <= i < |fields| ==> fields[i] != ""
    decreases |s|
  {
    if s == "" then []
    else if IsSpace(s[0]) then Fields(s[1..])
    else [s[..FieldEnd(s)]] + Fields(s[FieldEnd(s)..])
  }

  /** An entry of /proc: its name, and its stat file unless that is gone. */
  type Entry = (string, Option<string>)

  /** The pid of an entry that is a zombie child of the parent. */
  function ZombieIn(entry: Entry, parent: int): Option<int> {
    match (Decimal.ParseInt64(entry.0), entry.1)
    case (Some(pid), Some(stat)) =>
      var close := LastIndexOf(stat, ')');
      if close < 0 then None
      else
        var fields := Fields(stat[close + 1..]);
        if |fields| < 2 || fields[0][0] != 'Z' then None
        else if Decimal.ParseInt64(fields[1]) == Some(parent) then Some(pid) else None
    case _ => None
  }

  function Zombies(entries: seq<Entry>, parent: int): seq<int> {
    if entries == [] then []
    else
      var before := Zombies(entries[..|entries| - 1], parent);
      match ZombieIn(entries[|entries| - 1], parent)
      case Some(pid) => before + [pid]
      case None => before
  }

  method ZombiesOf(entries: seq<Entry>, parent: int) returns (zombies: seq<int>)
    ensures zombies == Zombies(entries, parent)
  {
    hide Fields, LastIndexOf, IsSpace;
    zombies := [];
    for i := 0 to |entries|
      invariant zombies == Zombies(entries[..i], parent)
    {
      assert entries[..i + 1][..i] == entries[..i];
      var (name, stat) := entries[i];
      var pid := Decimal.ParseInt64(name);
      if pid.None? || stat.None? { continue; }
      var close := LastIndexOf(stat.value, ')');
      if close < 0 { continue; }
      var fields := Fields(stat.value[close + 1..]);
      if |fields| < 2 || fields[0][0] != 'Z' { continue; }
      var ppid := Decimal.ParseInt64(fields[1]);
      if ppid.Some? && ppid.value == parent {
        zombies := zombies + [pid.value];
      }
    }
    assert entries[..|entries|] == entries;
  }

  // ---- what the kernel writes ----

  /** One process, as section 5 of proc(5) has it; `rest` is the numbers after
      the parent's pid. */
  datatype Process = Process(pid: nat, comm: string, state: char, ppid: nat, rest: string)

  function StatLine(p: Process): string {
    Decimal.PrintInt(p.pid) + " (" + p.comm + ") " + [p.state] + " " + Decimal.PrintInt(p.ppid) + p.rest
  }

  predicate WellFormed(p: Process) {
    && p.pid <= Decimal.MAX_INT64 && p.ppid <= Decimal.MAX_INT64
    && p.state != ')' && !IsSpace(p.state)
    && ')' !in p.rest && (p.rest == "" || IsSpace(p.rest[0]))
  }

  lemma {:induction false} LastIndexAfter(before: string, after: string, c: char)
    requires c !in after
    ensures LastIndexOf(before + [c] + after, c) == |before|
  {
    var s := before + [c] + after;
    if after == "" {
      assert s == before + [c];
    } else {
      assert s[..|s| - 1] == before + [c] + after[..|after| - 1];
      LastIndexAfter(before, after[..|after| - 1], c);
    }
  }

  lemma {:induction false} FieldIs(word: string, rest: string)
    requires (forall i :: 0 <= i < |word| ==> !IsSpace(word[i])) && (rest == "" || IsSpace(rest[0]))
    ensures FieldEnd(word + rest) == |word|
  {
    if word == "" {
      assert word + rest == rest;
    } else {
      assert (word + rest)[1..] == word[1..] + rest;
      FieldIs(word[1..], rest);
    }
  }

  lemma {:induction false} FieldFirst(word: string, rest: string)
    requires word != "" && (forall i :: 0 <= i < |word| ==> !IsSpace(word[i])) && (rest == "" || IsSpace(rest[0]))
    ensures Fields(word + rest) == [word] + Fields(rest)
  {
    FieldIs(word, rest);
    assert (word + rest)[..|word|] == word && (word + rest)[|word|..] == rest;
  }

  lemma {:induction false} DigitsAreNoSpace(n: nat)
    ensures forall i :: 0 <= i < |Decimal.PrintInt(n)| ==>
              !IsSpace(Decimal.PrintInt(n)[i]) && Decimal.PrintInt(n)[i] != ')'
  {
  }

  /** The line of any process reads as its own state and parent, whatever its
      command is called. */
  lemma {:induction false} StatLineReads(p: Process, parent: int)
    requires WellFormed(p)
    ensures ZombieIn((Decimal.PrintInt(p.pid), Some(StatLine(p))), parent)
            == if p.state == 'Z' && p.ppid == parent then Some(p.pid) else None
  {
    hide Decimal.ParseInt64, Decimal.PrintInt, LastIndexOf, Fields, FieldEnd;
    var ppid := Decimal.PrintInt(p.ppid);
    var before := Decimal.PrintInt(p.pid) + " (" + p.comm;
    var after := " " + ([p.state] + (" " + (ppid + p.rest)));
    DigitsAreNoSpace(p.ppid);
    assert StatLine(p) == before + [')'] + after;
    assert ')' !in after;
    LastIndexAfter(before, after, ')');
    assert StatLine(p)[|before| + 1..] == after;
    AfterFields(p, ppid);
    Decimal.ParseInt64Print(p.pid);
    Decimal.ParseInt64Print(p.ppid);
  }

  lemma {:induction false} AfterFields(p: Process, ppid: string)
    requires WellFormed(p) && ppid != "" && forall i :: 0 <= i < |ppid| ==> !IsSpace(ppid[i])
    ensures Fields(" " + ([p.state] + (" " + (ppid + p.rest)))) == [[p.state]] + ([ppid] + Fields(p.rest))
  {
    hide FieldEnd;
    FieldFirst(ppid, p.rest);
    SpaceSkipped(ppid + p.rest);
    FieldFirst([p.state], " " + (ppid + p.rest));
    SpaceSkipped([p.state] + (" " + (ppid + p.rest)));
  }

  lemma {:induction false} SpaceSkipped(s: string)
    ensures Fields(" " + s) == Fields(s)
  {
    assert (" " + s)[1..] == s;
  }

  function Listing(ps: seq<Process>): seq<Entry> {
    if ps == [] then []
    else Listing(ps[..|ps| - 1]) + [(Decimal.PrintInt(ps[|ps| - 1].pid), Some(StatLine(ps[|ps| - 1])))]
  }

  function ZombieChildren(ps: seq<Process>, parent: int): seq<int> {
    if ps == [] then []
    else ZombieChildren(ps[..|ps| - 1], parent)
         + (if ps[|ps| - 1].state == 'Z' && ps[|ps| - 1].ppid == parent then [ps[|ps| - 1].pid] else [])
  }

  /** Listed are exactly the zombies of that parent, in the order of /proc. */
  lemma {:induction false} ListingReads(ps: seq<Process>, parent: int)
    requires forall i :: 0 <= i < |ps| ==> WellFormed(ps[i])
    ensures Zombies(Listing(ps), parent) == ZombieChildren(ps, parent)
  {
    hide ZombieIn, StatLine, WellFormed, Decimal.PrintInt;
    if ps != [] {
      var last := ps[|ps| - 1];
      var before := Listing(ps[..|ps| - 1]);
      ListingReads(ps[..|ps| - 1], parent);
      StatLineReads(last, parent);
      assert Listing(ps)[..|before|] == before;
    }
  }

  /** What is no process, has gone, or has no command name is passed over,
      wherever it stands. */
  lemma {:induction false} NoiseIsSkipped(before: seq<Entry>, e: Entry, after: seq<Entry>, parent: int)
    requires e.1 == None || ')' !in e.1.value
             || e.0 == "" || (exists i :: 0 < i < |e.0| && !Decimal.IsDigit(e.0[i]))
             || (!Decimal.IsDigit(e.0[0]) && e.0[0] != '-' && e.0[0] != '+')
    ensures Zombies(before + [e] + after, parent) == Zombies(before + after, parent)
    decreases |after|
  {
    hide LastIndexOf, Decimal.ParseInt64, Fields;
    var all := before + [e] + after;
    if after == [] {
      assert all == before + [e] && all[..|before|] == before && before + after == before;
      NoiseIsNone(e, parent);
    } else {
      var n := |after| - 1;
      assert all[..|all| - 1] == before + [e] + after[..n];
      assert (before + after)[..|before| + n] == before + after[..n];
      NoiseIsSkipped(before, e, after[..n], parent);
    }
  }

  lemma {:induction false} NoiseIsNone(e: Entry, parent: int)
    requires e.1 == None || ')' !in e.1.value
             || e.0 == "" || (exists i :: 0 < i < |e.0| && !Decimal.IsDigit(e.0[i]))
             || (!Decimal.IsDigit(e.0[0]) && e.0[0] != '-' && e.0[0] != '+')
    ensures ZombieIn(e, parent) == None
  {
    hide Decimal.ParseInt64, Fields;
    Decimal.ParseInt64Exactly(e.0);
    if e.1.Some? && ')' !in e.1.value {
      NoneToFind(e.1.value, ')');
    }
    if i :| 0 < i < |e.0| && !Decimal.IsDigit(e.0[i]) {
      assert e.0[1..][i - 1] == e.0[i];
    }
  }

  lemma {:induction false} NoneToFind(s: string, c: char)
    requires c !in s
    ensures LastIndexOf(s, c) < 0
  {
    if s != "" {
      assert s[|s| - 1] != c;
      NoneToFind(s[..|s| - 1], c);
    }
  }
}
