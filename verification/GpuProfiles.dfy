/**
 * GPU profiles: the types a profile list names, the startup check that each has
 * a node selector, and the pod spec that looks the selector up.
 */
module GpuProfiles {
  import opened Common
  import opened Text

  type Labels = map<string, string>

  // ---- the profile list ----

  /** The GPU type one `key=value` names, if its key is gpu. */
  function TypeIn(pair: string): Option<string> {
    var parts := Split(pair, '=');
    var value := if |parts| > 1 then parts[1] else "";
    if Trim(parts[0]) != "gpu" then None
    else
      var type' := Upper(Trim(Split(value, ':')[0]));
      if type' == "" then None else Some(type')
  }

  /** A profile without its name: what follows the first colon, or all of it. */
  function Body(profile: string): string {
    profile[IndexOf(profile, ':') + 1..]
  }

  function TypesIn(pairs: seq<string>): seq<string> {
    if pairs == [] then []
    else
      var before := TypesIn(pairs[..|pairs| - 1]);
      match TypeIn(pairs[|pairs| - 1])
      case Some(type') => before + [type']
      case None => before
  }

  function TypesOf(profiles: seq<string>): seq<string> {
    if profiles == [] then []
    else TypesOf(profiles[..|profiles| - 1]) + TypesIn(Split(Body(profiles[|profiles| - 1]), ';'))
  }

  lemma {:induction false} TypesInNext(pairs: seq<string>, j: nat)
    requires j < |pairs|
    ensures TypesIn(pairs[..j + 1]) ==
            match TypeIn(pairs[j]) case Some(type') => TypesIn(pairs[..j]) + [type'] case None => TypesIn(pairs[..j])
  {
    assert pairs[..j + 1][..j] == pairs[..j];
  }

  lemma {:induction false} TypesOfNext(profiles: seq<string>, i: nat)
    requires i < |profiles|
    ensures TypesOf(profiles[..i + 1]) == TypesOf(profiles[..i]) + TypesIn(Split(Body(profiles[i]), ';'))
  {
    assert profiles[..i + 1][..i] == profiles[..i];
  }

  method ProfileGpuTypes(profiles: Option<string>) returns (types: seq<string>)
    ensures types == TypesOf(Split(if profiles.Some? then profiles.value else "", ','))
  {
    hide TypesOf, TypesIn, Split, Trim, Upper;
    types := [];
    var list := Split(if profiles.Some? then profiles.value else "", ',');
    assert TypesOf(list[..0]) == [] by { NoTypes(); }
    for i := 0 to |list|
      invariant types == TypesOf(list[..i])
    {
      ghost var before := types;
      var body := list[i][IndexOf(list[i], ':') + 1..];
      var pairs := Split(body, ';');
      assert TypesIn(pairs[..0]) == [] by { NoTypes(); }
      for j := 0 to |pairs|
        invariant types == before + TypesIn(pairs[..j])
      {
        TypesInNext(pairs, j);
        var parts := Split(pairs[j], '=');
        if Trim(parts[0]) != "gpu" { continue; }
        var value := if |parts| > 1 then parts[1] else "";
        var type' := Upper(Trim(Split(value, ':')[0]));
        if type' != "" {
          Regroup(before, TypesIn(pairs[..j]), [type']);
          types := types + [type'];
        }
      }
      assert pairs[..|pairs|] == pairs;
      TypesOfNext(list, i);
    }
    assert list[..|list|] == list;
  }

  lemma {:induction false} NoTypes()
    ensures TypesOf([]) == [] && TypesIn([]) == []
  {
  }

  // ---- what an operator writes ----

  /** `gpu=type:count` or `gpu=type`, with white space around the key and the
      type; or a setting of another key. */
  datatype Setting =
    | Gpu(keyPad: (string, string), kind: string, pad: (string, string), count: Option<string>)
    | Other(key: string, value: string)

  datatype Profile = Profile(name: string, settings: seq<Setting>)

  predicate Free(s: string, of: string) {
    forall i :: 0 <= i < |s| ==> s[i] !in of
  }

  predicate WellFormedSetting(s: Setting) {
    match s
    case Gpu(keyPad, kind, pad, count) =>
      Blank(keyPad.0) && Blank(keyPad.1) && Blank(pad.0) && Blank(pad.1)
      && kind != "" && Trimmed(kind) && Free(kind, ",;=:")
      && (count.Some? ==> Free(count.value, ",;="))
    case Other(key, value) => Free(key, ",;=") && Free(value, ",;=") && Trim(key) != "gpu"
  }

  predicate WellFormed(p: Profile) {
    Free(p.name, ",:") && forall i :: 0 <= i < |p.settings| ==> WellFormedSetting(p.settings[i])
  }

  function PrintSetting(s: Setting): string {
    match s
    case Gpu(keyPad, kind, pad, count) =>
      keyPad.0 + "gpu" + keyPad.1 + "=" + PrintValue(kind, pad, count)
    case Other(key, value) => key + "=" + value
  }

  function PrintValue(kind: string, pad: (string, string), count: Option<string>): string {
    pad.0 + kind + pad.1 + (match count case Some(n) => ":" + n case None => "")
  }

  function PrintSettings(settings: seq<Setting>): seq<string> {
    if settings == [] then []
    else PrintSettings(settings[..|settings| - 1]) + [PrintSetting(settings[|settings| - 1])]
  }

  function PrintProfile(p: Profile): string {
    p.name + ":" + Join(PrintSettings(p.settings), ';')
  }

  function PrintProfiles(ps: seq<Profile>): seq<string> {
    if ps == [] then [] else PrintProfiles(ps[..|ps| - 1]) + [PrintProfile(ps[|ps| - 1])]
  }

  /** The upper-cased types of the GPU settings, in order. */
  function Types(settings: seq<Setting>): seq<string> {
    if settings == [] then []
    else
      var before := Types(settings[..|settings| - 1]);
      match settings[|settings| - 1]
      case Gpu(_, kind, _, _) => before + [Upper(kind)]
      case Other(_, _) => before
  }

  function AllTypes(ps: seq<Profile>): seq<string> {
    if ps == [] then [] else AllTypes(ps[..|ps| - 1]) + Types(ps[|ps| - 1].settings)
  }

  // ---- the list reads back ----

  lemma {:induction false} FreeNot(s: string, of: string, c: char)
    requires Free(s, of) && c in of
    ensures c !in s
  {
  }

  lemma {:induction false} BlankFree(s: string)
    requires Blank(s)
    ensures Free(s, ",;=:")
  {
  }

  lemma {:induction false} SplitTwo(a: string, b: string, sep: char)
    requires sep !in a && sep !in b
    ensures Split(a + [sep] + b, sep) == [a, b]
  {
    Regroup(a, [sep], b);
    SplitFirst(a, [sep] + b, sep);
    SplitOne(b, sep);
    assert ([sep] + b)[1..] == b;
  }

  lemma {:induction false} ValueFree(kind: string, pad: (string, string), count: Option<string>)
    requires Blank(pad.0) && Blank(pad.1) && Free(kind, ",;=:") && (count.Some? ==> Free(count.value, ",;="))
    ensures Free(PrintValue(kind, pad, count), ",;=")
  {
    BlankFree(pad.0);
    BlankFree(pad.1);
  }

  lemma {:induction false} ValueType(kind: string, pad: (string, string), count: Option<string>)
    requires Blank(pad.0) && Blank(pad.1) && kind != "" && Trimmed(kind) && Free(kind, ",;=:")
    ensures Trim(Split(PrintValue(kind, pad, count), ':')[0]) == kind
  {
    hide Trim, Split;
    var first := pad.0 + kind + pad.1;
    BlankFree(pad.0);
    BlankFree(pad.1);
    FreeNot(pad.0, ",;=:", ':');
    FreeNot(pad.1, ",;=:", ':');
    FreeNot(kind, ",;=:", ':');
    var rest := match count case Some(n) => ":" + n case None => "";
    SplitFirst(first, rest, ':');
    TrimOf(pad.0, kind, pad.1);
  }

  /** One setting reads as the type it names. */
  lemma {:induction false} SettingReads(s: Setting)
    requires WellFormedSetting(s)
    ensures TypeIn(PrintSetting(s)) == match s case Gpu(_, kind, _, _) => Some(Upper(kind)) case Other(_, _) => None
  {
    hide Trim, Split, PrintValue, Blank, Trimmed;
    match s
    case Gpu(keyPad, kind, pad, count) =>
      var key, value := keyPad.0 + "gpu" + keyPad.1, PrintValue(kind, pad, count);
      BlankFree(keyPad.0);
      BlankFree(keyPad.1);
      ValueFree(kind, pad, count);
      FreeNot(value, ",;=", '=');
      FreeNot(keyPad.0, ",;=:", '=');
      FreeNot(keyPad.1, ",;=:", '=');
      SplitTwo(key, value, '=');
      TrimGpu(keyPad);
      ValueType(kind, pad, count);
    case Other(key, value) =>
      FreeNot(key, ",;=", '=');
      FreeNot(value, ",;=", '=');
      SplitTwo(key, value, '=');
  }

  lemma {:induction false} TrimGpu(keyPad: (string, string))
    requires Blank(keyPad.0) && Blank(keyPad.1)
    ensures Trim(keyPad.0 + "gpu" + keyPad.1) == "gpu"
  {
    hide Trim;
    TrimOf(keyPad.0, "gpu", keyPad.1);
  }

  lemma {:induction false} SettingFree(s: Setting)
    requires WellFormedSetting(s)
    ensures Free(PrintSetting(s), ",;")
  {
    hide Trim, PrintValue, Trimmed, Blank;
    if s.Gpu? {
      BlankFree(s.keyPad.0);
      BlankFree(s.keyPad.1);
      ValueFree(s.kind, s.pad, s.count);
    }
  }

  lemma {:induction false} SettingsRead(settings: seq<Setting>)
    requires forall i :: 0 <= i < |settings| ==> WellFormedSetting(settings[i])
    ensures TypesIn(PrintSettings(settings)) == Types(settings)
    ensures |PrintSettings(settings)| == |settings|
    ensures forall i :: 0 <= i < |settings| ==> Free(PrintSettings(settings)[i], ",;")
  {
    hide TypeIn, PrintSetting, WellFormedSetting, Free;
    if settings != [] {
      var last := settings[|settings| - 1];
      var before := PrintSettings(settings[..|settings| - 1]);
      SettingsRead(settings[..|settings| - 1]);
      SettingReads(last);
      SettingFree(last);
      assert PrintSettings(settings)[..|before|] == before;
    }
  }

  lemma {:induction false} JoinFree(parts: seq<string>, sep: char, c: char)
    requires c != sep && forall i :: 0 <= i < |parts| ==> c !in parts[i]
    ensures c !in Join(parts, sep)
  {
    if |parts| > 1 {
      JoinFree(parts[1..], sep, c);
    }
  }

  lemma {:induction false} IndexAfter(a: string, c: char, b: string)
    requires c !in a
    ensures IndexOf(a + [c] + b, c) == |a|
  {
    if a == "" {
      assert a + [c] + b == [c] + b;
    } else {
      assert (a + [c] + b)[1..] == a[1..] + [c] + b;
      IndexAfter(a[1..], c, b);
    }
  }

  lemma {:induction false} ProfileReads(p: Profile)
    requires WellFormed(p)
    ensures TypesIn(Split(Body(PrintProfile(p)), ';')) == Types(p.settings)
    ensures ',' !in PrintProfile(p)
  {
    hide WellFormedSetting, PrintSettings, TypesIn, Types, Split, Join;
    var settings := PrintSettings(p.settings);
    SettingsRead(p.settings);
    forall i | 0 <= i < |settings| ensures ';' !in settings[i] && ',' !in settings[i] {
      FreeNot(settings[i], ",;", ';');
      FreeNot(settings[i], ",;", ',');
    }
    if settings != [] {
      SplitJoin(settings, ';');
    } else {
      NothingNamed();
    }
    JoinFree(settings, ';', ',');
    FreeNot(p.name, ",:", ':');
    FreeNot(p.name, ",:", ',');
    IndexAfter(p.name, ':', Join(settings, ';'));
    assert Body(PrintProfile(p)) == Join(settings, ';');
  }

  lemma {:induction false} ProfilesRead(ps: seq<Profile>)
    requires forall i :: 0 <= i < |ps| ==> WellFormed(ps[i])
    ensures TypesOf(PrintProfiles(ps)) == AllTypes(ps)
    ensures |PrintProfiles(ps)| == |ps| && forall i :: 0 <= i < |ps| ==> ',' !in PrintProfiles(ps)[i]
  {
    hide WellFormed, PrintProfile, TypesIn, Types, Split, Body;
    if ps != [] {
      var before := PrintProfiles(ps[..|ps| - 1]);
      ProfilesRead(ps[..|ps| - 1]);
      ProfileReads(ps[|ps| - 1]);
      assert PrintProfiles(ps)[..|before|] == before;
    }
  }

  /** The variable's text for a list of profiles. */
  function PrintList(ps: seq<Profile>): string { Join(PrintProfiles(ps), ',') }

  /** profileGpuTypes inverts the printing of any well-formed list: exactly the
      upper-cased GPU types it names, in order. */
  lemma {:induction false} PrintedTypes(ps: seq<Profile>)
    requires forall i :: 0 <= i < |ps| ==> WellFormed(ps[i])
    ensures TypesOf(Split(PrintList(ps), ',')) == AllTypes(ps)
  {
    hide WellFormed, Split, Join, TypesOf, AllTypes, PrintProfiles;
    ProfilesRead(ps);
    if ps != [] {
      SplitJoin(PrintProfiles(ps), ',');
    } else {
      NothingNamed();
    }
  }

  /** Neither an empty profile nor an empty list names a type. */
  lemma {:induction false} NothingNamed()
    ensures Join([], ';') == "" && TypesIn(Split("", ';')) == [] && Types([]) == []
    ensures PrintList([]) == "" && TypesOf(Split("", ',')) == [] && AllTypes([]) == []
    ensures PrintSettings([]) == []
  {
    hide Split, TypeIn, Types, AllTypes, Body;
    SplitOne("", ';');
    SplitOne("", ',');
    NoTypeIn();
    NoTypes();
    EmptyBody();
    NothingTyped();
    hide TypesIn, TypesOf;
    TypesInNext([""], 0);
    TypesOfNext([""], 0);
    assert [""][..1] == [""] && [""][..0] == [];
  }

  lemma {:induction false} EmptyBody()
    ensures Body("") == ""
  {
    assert IndexOf("", ':') == -1;
    assert ""[0..] == "";
  }

  lemma {:induction false} NothingTyped()
    ensures Types([]) == [] && AllTypes([]) == []
  {
    hide Upper;
  }

  lemma {:induction false} NoTypeIn()
    ensures TypeIn("") == None
  {
    hide Split;
    SplitOne("", '=');
  }

  // ---- the selectors ----

  /** A value of the parsed variable: not an object, or labels of which a value
      may not be a string. */
  datatype Selector = NoObject | Object(labels: seq<(string, Option<string>)>)

  predicate LabelOk(entry: (string, Option<string>)) {
    Trim(entry.0) != "" && entry.1.Some? && Trim(entry.1.value) != ""
  }

  /** A label that is kept: a string assigned to `__proto__` is not. */
  predicate Kept(entry: (string, Option<string>)) {
    entry.0 != "__proto__"
  }

  predicate SelectorOk(s: Selector) {
    s.Object? && (exists i :: 0 <= i < |s.labels| && Kept(s.labels[i]))
    && forall i :: 0 <= i < |s.labels| ==> LabelOk(s.labels[i])
  }

  function LabelMap(labels: seq<(string, Option<string>)>): Labels
    requires forall i :: 0 <= i < |labels| ==> LabelOk(labels[i])
  {
    if labels == [] then map[]
    else
      var last, before := labels[|labels| - 1], LabelMap(labels[..|labels| - 1]);
      assert LabelOk(last);
      if Kept(last) then before[last.0 := last.1.value] else before
  }

  lemma {:induction false} LabelsKept(labels: seq<(string, Option<string>)>)
    requires forall i :: 0 <= i < |labels| ==> LabelOk(labels[i])
    ensures LabelMap(labels) != map[] <==> exists i :: 0 <= i < |labels| && Kept(labels[i])
  {
    hide LabelOk;
    if labels != [] {
      var n := |labels| - 1;
      LabelsKept(labels[..n]);
      assert LabelMap(labels) == LabelMap(labels[..n]) || labels[n].0 in LabelMap(labels);
      if i :| 0 <= i < |labels| && Kept(labels[i]) {
        assert i < n ==> labels[..n][i] == labels[i];
      }
      if i :| 0 <= i < n && Kept(labels[..n][i]) {
        assert labels[i] == labels[..n][i];
      }
    }
  }

  /** No later entry has the same name. */
  predicate LastNamed(entries: seq<(string, Option<string>)>, i: nat)
    requires i < |entries|
  {
    forall j :: i < j < |entries| ==> entries[j].0 != entries[i].0
  }

  predicate Named(entries: seq<(string, Option<string>)>, name: string) {
    exists i :: 0 <= i < |entries| && entries[i].0 == name
  }

  /** The labels hold every label that is kept, with the value its last entry
      gives it, and no other. */
  predicate Holds(labels: Labels, entries: seq<(string, Option<string>)>) {
    && (forall i :: 0 <= i < |entries| && entries[i].0 != "__proto__" && LastNamed(entries, i) ==>
          entries[i].0 in labels && Some(labels[entries[i].0]) == entries[i].1)
    && (forall name :: name in labels ==> name != "__proto__" && Named(entries, name))
  }

  lemma {:induction false} LabelMapHolds(labels: seq<(string, Option<string>)>)
    requires forall i :: 0 <= i < |labels| ==> LabelOk(labels[i])
    ensures Holds(LabelMap(labels), labels)
  {
    hide LabelOk, Kept;
    if labels != [] {
      var n := |labels| - 1;
      LabelMapHolds(labels[..n]);
      LabelHasValue(labels[n]);
      assert labels[..n] + [labels[n]] == labels;
      OneMoreLabel(LabelMap(labels[..n]), labels[..n], labels[n]);
      LabelMapNext(labels);
    }
  }

  lemma {:induction false} LabelMapNext(labels: seq<(string, Option<string>)>)
    requires labels != [] && forall i :: 0 <= i < |labels| ==> LabelOk(labels[i])
    ensures labels[|labels| - 1].1.Some?
    ensures LabelMap(labels) == WithLabel(LabelMap(labels[..|labels| - 1]), labels[|labels| - 1])
  {
    LabelHasValue(labels[|labels| - 1]);
    hide LabelOk;
  }

  function WithLabel(labels: Labels, entry: (string, Option<string>)): Labels
    requires entry.1.Some?
  {
    if entry.0 != "__proto__" then labels[entry.0 := entry.1.value] else labels
  }

  lemma {:induction false} OneMoreLabel(labels: Labels, before: seq<(string, Option<string>)>, entry: (string, Option<string>))
    requires Holds(labels, before) && entry.1.Some?
    ensures Holds(WithLabel(labels, entry), before + [entry])
  {
    hide LastNamed, Named;
    var all, labels' := before + [entry], WithLabel(labels, entry);
    forall i | 0 <= i < |all| && all[i].0 != "__proto__" && LastNamed(all, i)
      ensures all[i].0 in labels' && Some(labels'[all[i].0]) == all[i].1 {
      if i < |before| {
        LastBefore(before, entry, i);
      }
    }
    forall name | name in labels' ensures name != "__proto__" && Named(all, name) {
      NamedAfter(before, entry, name);
    }
  }

  lemma {:induction false} LastBefore(before: seq<(string, Option<string>)>, entry: (string, Option<string>), i: nat)
    requires i < |before| && LastNamed(before + [entry], i)
    ensures LastNamed(before, i) && entry.0 != before[i].0
  {
    var all := before + [entry];
    assert all[|before|] == entry && forall j :: 0 <= j < |before| ==> all[j] == before[j];
  }

  lemma {:induction false} NamedAfter(before: seq<(string, Option<string>)>, entry: (string, Option<string>), name: string)
    ensures Named(before, name) || name == entry.0 ==> Named(before + [entry], name)
  {
    var all := before + [entry];
    assert all[|before|] == entry && forall j :: 0 <= j < |before| ==> all[j] == before[j];
  }

  lemma {:induction false} LabelHasValue(entry: (string, Option<string>))
    requires LabelOk(entry)
    ensures entry.1.Some?
  {
  }

  /** No later entry has the same type, in whatever case. */
  predicate LastOfType(entries: seq<(string, Selector)>, i: nat)
    requires i < |entries|
  {
    forall j :: i < j < |entries| ==> Upper(entries[j].0) != Upper(entries[i].0)
  }

  method ReadLabels(selector: Selector) returns (labels: Option<Labels>)
    ensures labels.Some? <==> SelectorOk(selector)
    ensures labels.Some? ==> labels.value == LabelMap(selector.labels) && Holds(labels.value, selector.labels)
  {
    hide Trim, Holds;
    if selector.NoObject? { return None; }
    var found: Labels := map[];
    for j := 0 to |selector.labels|
      invariant forall k :: 0 <= k < j ==> LabelOk(selector.labels[k])
      invariant found == LabelMap(selector.labels[..j])
    {
      var (name, value) := selector.labels[j];
      if Trim(name) == "" || value.None? || Trim(value.value) == "" {
        assert !LabelOk(selector.labels[j]);
        return None;
      }
      assert selector.labels[..j + 1][..j] == selector.labels[..j];
      if name != "__proto__" {
        found := found[name := value.value];
      }
    }
    assert selector.labels[..|selector.labels|] == selector.labels;
    LabelsKept(selector.labels);
    LabelMapHolds(selector.labels);
    if found == map[] { return None; }
    labels := Some(found);
  }

  predicate AllOk(entries: seq<(string, Selector)>) {
    forall i :: 0 <= i < |entries| ==> SelectorOk(entries[i].1)
  }

  function LabelsOf(s: Selector): Labels
    requires SelectorOk(s)
  {
    LabelMap(s.labels)
  }

  /** The selectors by upper-cased type, a later entry over an earlier one. */
  function Selectors(entries: seq<(string, Selector)>): map<string, Labels>
    requires AllOk(entries)
  {
    if entries == [] then map[]
    else
      var last := entries[|entries| - 1];
      Selectors(entries[..|entries| - 1])[Upper(last.0) := LabelsOf(last.1)]
  }

  /** ARMADA_GPU_NODE_SELECTORS, parsed: every entry a non-empty object of
      strings. None is the error. */
  method ReadGpuNodeSelectors(entries: seq<(string, Selector)>) returns (selectors: Option<map<string, Labels>>)
    ensures selectors.Some? <==> entries != [] && AllOk(entries)
    ensures selectors.Some? ==> selectors.value == Selectors(entries) && selectors.value != map[]
  {
    hide Upper, LabelMap, SelectorOk;
    var found: map<string, Labels> := map[];
    for i := 0 to |entries|
      invariant AllOk(entries[..i]) && found == Selectors(entries[..i])
      invariant i > 0 ==> found != map[]
    {
      var labels := ReadLabels(entries[i].1);
      assert entries[..i + 1][..i] == entries[..i] && entries[..i + 1][i] == entries[i];
      if labels.None? {
        assert !SelectorOk(entries[i].1);
        return None;
      }
      assert AllOk(entries[..i + 1]);
      found := found[Upper(entries[i].0) := labels.value];
      assert Upper(entries[i].0) in found;
    }
    assert entries[..|entries|] == entries;
    if entries == [] { return None; }
    selectors := Some(found);
  }

  lemma {:induction false} SelectorsKeys(entries: seq<(string, Selector)>, type': string)
    requires AllOk(entries)
    ensures type' in Selectors(entries) <==> exists i :: 0 <= i < |entries| && Upper(entries[i].0) == type'
  {
    hide Upper, LabelsOf, SelectorOk;
    if entries != [] {
      var n := |entries| - 1;
      var before := entries[..n];
      SelectorsKeys(before, type');
      if i :| 0 <= i < |entries| && Upper(entries[i].0) == type' {
        assert i < n ==> before[i] == entries[i];
      }
      if i :| 0 <= i < n && Upper(before[i].0) == type' {
        assert entries[i] == before[i];
      }
    }
  }

  /** Each type maps, whatever case the operator wrote it in, to the labels of
      its last entry; and no other type does. */
  lemma {:induction false} SelectorsExactly(entries: seq<(string, Selector)>, i: nat, type': string)
    requires AllOk(entries) && i < |entries| && LastOfType(entries, i)
    ensures type' in Selectors(entries) <==> exists j :: 0 <= j < |entries| && Upper(entries[j].0) == type'
    ensures Upper(entries[i].0) in Selectors(entries)
    ensures Selectors(entries)[Upper(entries[i].0)] == LabelsOf(entries[i].1)
  {
    hide Upper, LabelsOf, SelectorOk;
    SelectorsKeys(entries, type');
    var n := |entries| - 1;
    if i < n {
      var before := entries[..n];
      assert before[i] == entries[i] && forall j :: i < j < n ==> before[j] == entries[j];
      SelectorsExactly(before, i, type');
      assert Upper(entries[n].0) != Upper(entries[i].0);
    }
  }

  // ---- the check and the lookup ----

  /** Every type that the variable's list names has a selector. */
  predicate AllSelected(profiles: Option<string>, selectors: map<string, Labels>) {
    forall type' :: type' in TypesOf(Split(if profiles.Some? then profiles.value else "", ',')) ==> type' in selectors
  }

  /** The end of readConfig, for the two variables. */
  method GpuCheck(selectors: map<string, Labels>, editing: Option<string>, apps: Option<string>) returns (accepted: bool)
    ensures accepted <==> selectors == map[] || (AllSelected(editing, selectors) && AllSelected(apps, selectors))
  {
    hide TypesOf, Split;
    if selectors == map[] { return true; }
    var first := ProfileGpuTypes(editing);
    for i := 0 to |first|
      invariant forall k :: 0 <= k < i ==> first[k] in selectors
    {
      if first[i] !in selectors { return false; }
    }
    var second := ProfileGpuTypes(apps);
    for i := 0 to |second|
      invariant forall k :: 0 <= k < i ==> second[k] in selectors
    {
      if second[i] !in selectors { return false; }
    }
    accepted := true;
  }

  /** parseGpu */
  function ParseGpu(gpu: string): (string, string) {
    var parts := Split(gpu, ':');
    (Upper(parts[0]), if |parts| > 1 then parts[1] else "1")
  }

  datatype Placed = Anywhere | On(labels: Labels) | NoSelector

  function GpuNodeSelector(selectors: map<string, Labels>, gpu: Option<string>): Placed {
    if gpu == None || gpu == Some("") then Anywhere
    else
      var type' := ParseGpu(gpu.value).0;
      if type' in selectors then On(selectors[type']) else NoSelector
  }

  /** What marimohub asks for on a session of a profile with this GPU setting. */
  function Requested(kind: string, count: Option<string>): string {
    Upper(kind) + (match count case Some(n) => ":" + n case None => "")
  }

  /** A request is for the type its setting named. */
  lemma {:induction false} RequestedType(kind: string, count: Option<string>)
    requires kind != "" && Free(kind, ",;=:")
    ensures Requested(kind, count) != "" && ParseGpu(Requested(kind, count)).0 == Upper(kind)
    ensures count.Some? && ':' !in count.value ==> ParseGpu(Requested(kind, count)).1 == count.value
    ensures count == None ==> ParseGpu(Requested(kind, count)).1 == "1"
  {
    hide Split;
    FreeNot(kind, ",;=:", ':');
    assert ':' !in Upper(kind) by { UpperKeeps(kind, ':'); }
    UpperTwice(kind);
    match count
    case None =>
      assert Upper(kind) + "" == Upper(kind);
      SplitOne(Upper(kind), ':');
    case Some(n) =>
      SplitFirst(Upper(kind), ":" + n, ':');
      assert (":" + n)[1..] == n;
      if ':' !in n {
        SplitOne(n, ':');
      }
  }

  lemma {:induction false} UpperKeeps(s: string, c: char)
    requires c !in s && !('A' <= c <= 'Z')
    ensures c !in Upper(s)
  {
  }

  /** A pod that asks for a GPU goes where the last entry of its type says, with
      just those labels; for a type that none names it is refused; and without
      a GPU it may go anywhere. */
  lemma {:induction false} PlacedExactly(entries: seq<(string, Selector)>, kind: string, count: Option<string>, i: nat)
    requires AllOk(entries) && i < |entries| && LastOfType(entries, i)
    requires kind != "" && Free(kind, ",;=:")
    ensures var placed := GpuNodeSelector(Selectors(entries), Some(Requested(kind, count)));
            && (Upper(kind) == Upper(entries[i].0) ==>
                  placed == On(LabelsOf(entries[i].1)) && Holds(placed.labels, entries[i].1.labels))
            && (placed == NoSelector <==> forall j :: 0 <= j < |entries| ==> Upper(entries[j].0) != Upper(kind))
    ensures GpuNodeSelector(Selectors(entries), None) == GpuNodeSelector(Selectors(entries), Some("")) == Anywhere
  {
    hide Upper, ParseGpu, Requested, Selectors, Holds, LabelMap, LabelOk;
    RequestedType(kind, count);
    SelectorsExactly(entries, i, Upper(kind));
    LabelMapHolds(entries[i].1.labels);
  }

  /** Every GPU request that some profile of the list can lead to. */
  ghost predicate Asks(ps: seq<Profile>, gpu: string) {
    exists i, j :: 0 <= i < |ps| && 0 <= j < |ps[i].settings| && ps[i].settings[j].Gpu?
                   && gpu == Requested(ps[i].settings[j].kind, ps[i].settings[j].count)
  }

  lemma {:induction false} TypesHave(settings: seq<Setting>, type': string)
    ensures type' in Types(settings)
            <==> exists j :: 0 <= j < |settings| && settings[j].Gpu? && Upper(settings[j].kind) == type'
  {
    if settings != [] {
      var n := |settings| - 1;
      TypesHave(settings[..n], type');
      if j :| 0 <= j < |settings| && settings[j].Gpu? && Upper(settings[j].kind) == type' {
        assert j < n ==> settings[..n][j] == settings[j];
      }
      if j :| 0 <= j < n && settings[..n][j].Gpu? && Upper(settings[..n][j].kind) == type' {
        assert settings[j] == settings[..n][j];
      }
    }
  }

  lemma {:induction false} AllTypesHave(ps: seq<Profile>, type': string)
    ensures type' in AllTypes(ps) <==> exists i :: 0 <= i < |ps| && type' in Types(ps[i].settings)
  {
    hide Types;
    if ps != [] {
      var n := |ps| - 1;
      AllTypesHave(ps[..n], type');
      if i :| 0 <= i < |ps| && type' in Types(ps[i].settings) {
        assert i < n ==> ps[..n][i] == ps[i];
      }
      if i :| 0 <= i < n && type' in Types(ps[..n][i].settings) {
        assert ps[i] == ps[..n][i];
      }
    }
  }

  /** A type of the list is one some request asks for, and the other way round. */
  lemma {:induction false} AskedTypes(ps: seq<Profile>, type': string)
    requires forall i :: 0 <= i < |ps| ==> WellFormed(ps[i])
    ensures type' in AllTypes(ps)
            <==> exists gpu :: Asks(ps, gpu) && gpu != "" && ParseGpu(gpu).0 == type'
  {
    hide Types, AllTypes, ParseGpu, Requested, Upper, Free;
    AllTypesHave(ps, type');
    if type' in AllTypes(ps) {
      var i :| 0 <= i < |ps| && type' in Types(ps[i].settings);
      TypesHave(ps[i].settings, type');
      var j :| 0 <= j < |ps[i].settings| && ps[i].settings[j].Gpu? && Upper(ps[i].settings[j].kind) == type';
      var s := ps[i].settings[j];
      assert WellFormedSetting(s);
      RequestedType(s.kind, s.count);
      assert Asks(ps, Requested(s.kind, s.count));
    }
    if gpu :| Asks(ps, gpu) && gpu != "" && ParseGpu(gpu).0 == type' {
      var i, j :| 0 <= i < |ps| && 0 <= j < |ps[i].settings| && ps[i].settings[j].Gpu?
                  && gpu == Requested(ps[i].settings[j].kind, ps[i].settings[j].count);
      assert WellFormedSetting(ps[i].settings[j]);
      RequestedType(ps[i].settings[j].kind, ps[i].settings[j].count);
      TypesHave(ps[i].settings, type');
    }
  }

  /** GPU profiles accepted at startup always place, and only those: with a map
      of selectors set, the check accepts two profile lists exactly when the pod
      spec finds a selector for every GPU request of every profile in both. */
  method AcceptedProfilesPlace(selectors: map<string, Labels>, editing: seq<Profile>, apps: seq<Profile>)
    returns (accepted: bool)
    requires selectors != map[]
    requires forall i :: 0 <= i < |editing| ==> WellFormed(editing[i])
    requires forall i :: 0 <= i < |apps| ==> WellFormed(apps[i])
    ensures accepted <==> forall gpu :: Asks(editing, gpu) || Asks(apps, gpu) ==> GpuNodeSelector(selectors, Some(gpu)).On?
  {
    hide Split, TypesOf, AllTypes, WellFormed, PrintList, ParseGpu, Asks;
    accepted := GpuCheck(selectors, Some(PrintList(editing)), Some(PrintList(apps)));
    PrintedTypes(editing);
    PrintedTypes(apps);
    AsksSomething(editing);
    AsksSomething(apps);
    forall type' ensures type' in AllTypes(editing) <==> exists gpu :: Asks(editing, gpu) && gpu != "" && ParseGpu(gpu).0 == type' {
      AskedTypes(editing, type');
    }
    forall type' ensures type' in AllTypes(apps) <==> exists gpu :: Asks(apps, gpu) && gpu != "" && ParseGpu(gpu).0 == type' {
      AskedTypes(apps, type');
    }
  }

  lemma {:induction false} AsksSomething(ps: seq<Profile>)
    requires forall i :: 0 <= i < |ps| ==> WellFormed(ps[i])
    ensures forall gpu :: Asks(ps, gpu) ==> gpu != ""
  {
    hide Free, Upper, ParseGpu;
    forall gpu | Asks(ps, gpu) ensures gpu != "" {
      var i, j :| 0 <= i < |ps| && 0 <= j < |ps[i].settings| && ps[i].settings[j].Gpu?
                  && gpu == Requested(ps[i].settings[j].kind, ps[i].settings[j].count);
      assert WellFormedSetting(ps[i].settings[j]);
      RequestedType(ps[i].settings[j].kind, ps[i].settings[j].count);
    }
  }
}
