/**
 * The no-follow walk of a bounded read, over a file system that may be changed
 * by others between any two system calls, and the path check in front of it.
 */
module NoFollow {
  import opened Common
  import Text

  type Inode = nat

  datatype Node =
    | Dir(entries: map<string, Inode>)
    | Regular
    | Symlink(target: string)
    | Special

  type FS = map<Inode, Node>

  datatype Errno = ENOENT | ENOTDIR | ELOOP | EOther

  datatype Result<+T> = Ok(value: T) | Err(error: Errno)

  // ---- paths ----

  /** The parts of a path between its slashes: `strings.Split(path, "/")`. */
  function Split(path: string): (parts: seq<string>)
    ensures |parts| > 0
  {
    Text.Split(path, '/')
  }

  predicate IsName(part: string) { part != "" && part != "." }

  /** The parts that name something, in order. */
  function Names(parts: seq<string>): (names: seq<string>)
    ensures forall name :: name in names <==> name in parts && IsName(name)
  {
    if parts == [] then []
    else
      var last := parts[|parts| - 1];
      var before := Names(parts[..|parts| - 1]);
      assert parts == parts[..|parts| - 1] + [last];
      if IsName(last) then before + [last] else before
  }

  function Components(path: string): seq<string> { Names(Split(path)) }

  /** What readFileBounded demands of a path before it opens anything. */
  predicate Acceptable(path: string) {
    var names := Split(path);
    path != "" && path[0] == '/' && ".." !in names && IsName(names[|names| - 1])
  }

  function Joined(names: seq<string>): string {
    if names == [] then "" else "/" + names[0] + Joined(names[1..])
  }

  lemma {:induction false} JoinedSplit(parts: seq<string>)
    requires parts != []
    ensures Joined(parts) == "/" + Text.Join(parts, '/')
  {
    if |parts| == 1 {
      assert parts[1..] == [] && "/" + parts[0] + "" == "/" + parts[0];
    } else {
      JoinedSplit(parts[1..]);
      Regroup("/", parts[0], "/" + Text.Join(parts[1..], '/'));
      Regroup(parts[0], "/", Text.Join(parts[1..], '/'));
    }
  }

  /** Slashes each before a part, of which none is `..` or holds a slash, and the
      last is neither empty nor a dot. */
  predicate Spells(parts: seq<string>, path: string) {
    && parts != [] && path == Joined(parts) && IsName(parts[|parts| - 1])
    && forall part :: part in parts ==> part != ".." && '/' !in part
  }

  /** The paths accepted are those so spelled. */
  lemma {:induction false} AcceptableExactly(path: string)
    ensures Acceptable(path) <==> exists parts :: Spells(parts, path)
  {
    hide Joined;
    if Acceptable(path) {
      AcceptedSpells(path);
    }
    if parts :| Spells(parts, path) {
      JoinedParts(parts);
      JoinedSplit(parts);
      assert ".." !in [""] + parts;
    }
  }

  lemma {:induction false} AcceptedSpells(path: string)
    requires Acceptable(path)
    ensures Spells(Split(path)[1..], path)
  {
    hide Joined, IsName;
    var all := Split(path);
    var parts := all[1..];
    Text.PartsHaveNone(path, '/');
    Text.JoinSplit(path, '/');
    assert all == [""] + parts && forall part :: part in parts ==> part in all;
    assert parts != [] && Text.Join(all, '/') == "" + "/" + Text.Join(parts, '/');
    JoinedSplit(parts);
    assert path == Joined(parts) && parts[|parts| - 1] == all[|all| - 1];
  }

  /** An accepted path has a name to open, its last part is that name, and no
      name climbs or contains a slash. */
  lemma {:induction false} AcceptedNames(path: string)
    requires Acceptable(path)
    ensures var parts, names := Split(path), Components(path);
            |names| > 0 && names[|names| - 1] == parts[|parts| - 1]
            && forall name :: name in names ==> IsName(name) && name != ".." && '/' !in name
  {
    Text.PartsHaveNone(path, '/');
  }

  lemma {:induction false} NamesPrepend(part: string, parts: seq<string>)
    ensures Names([part] + parts) == (if IsName(part) then [part] else []) + Names(parts)
  {
    var all := [part] + parts;
    if parts == [] {
      assert all == [part] && all[..0] == [];
    } else {
      assert all[..|all| - 1] == [part] + parts[..|parts| - 1];
      NamesPrepend(part, parts[..|parts| - 1]);
    }
  }

  lemma {:induction false} JoinedParts(names: seq<string>)
    requires forall name :: name in names ==> '/' !in name
    requires names != []
    ensures Split(Joined(names)) == [""] + names
  {
    var rest := Joined(names[1..]);
    var text := names[0] + rest;
    assert Joined(names) == "/" + text && ("/" + text)[1..] == text by {
      Regroup("/", names[0], rest);
    }
    if names[1..] == [] {
      assert text == names[0] + "" && names == [names[0]];
      Text.SplitFirst(names[0], "", '/');
    } else {
      assert forall name :: name in names[1..] ==> name in names;
      JoinedParts(names[1..]);
      SplitJoinedTail(names[1..]);
      Text.SplitFirst(names[0], rest, '/');
      assert names == [names[0]] + names[1..];
    }
  }

  lemma {:induction false} SplitJoinedTail(names: seq<string>)
    requires names != [] && Split(Joined(names)) == [""] + names
    ensures Joined(names) != "" && Joined(names)[0] == '/' && Split(Joined(names)[1..]) == names
  {
    var text := Joined(names);
    assert Split(text) == [""] + Split(text[1..]);
    assert Split(text)[1..] == names && ([""] + Split(text[1..]))[1..] == Split(text[1..]);
  }

  lemma {:induction false} NamesOfNames(names: seq<string>)
    requires forall name :: name in names ==> IsName(name)
    ensures Names(names) == names
  {
    if names != [] {
      NamesOfNames(names[..|names| - 1]);
      assert names[..|names| - 1] + [names[|names| - 1]] == names;
    }
  }

  /** The components of a path are those of the plain path they spell. */
  lemma {:induction false} ComponentsCanonical(path: string)
    requires Acceptable(path)
    ensures Components(Joined(Components(path))) == Components(path)
    ensures Acceptable(Joined(Components(path)))
  {
    var names := Components(path);
    AcceptedNames(path);
    JoinedParts(names);
    NamesPrepend("", names);
    NamesOfNames(names);
  }

  // ---- one step ----

  /** openat with O_NOFOLLOW, and O_DIRECTORY where asked, on the file system of
      that moment. `trouble` is any failure of the moment's own: permission, a
      full descriptor table, a device. */
  function OpenAt(fs: FS, trouble: bool, dir: Inode, name: string, directory: bool): Result<Inode> {
    if trouble then Err(EOther)
    else if dir !in fs then Err(ENOENT)
    else if !fs[dir].Dir? then Err(ENOTDIR)
    else if name !in fs[dir].entries || fs[dir].entries[name] !in fs then Err(ENOENT)
    else
      var child := fs[dir].entries[name];
      if directory && !fs[child].Dir? then Err(ENOTDIR)
      else if fs[child].Symlink? then Err(ELOOP)
      else Ok(child)
  }

  /** One descriptor after another, from moment t. */
  function Walk(world: nat -> FS, trouble: nat -> bool, t: nat, dir: Inode, names: seq<string>): Result<Inode>
    decreases |names|
  {
    if names == [] then Ok(dir)
    else match OpenAt(world(t), trouble(t), dir, names[0], |names| > 1)
      case Err(e) => Err(e)
      case Ok(child) => Walk(world, trouble, t + 1, child, names[1..])
  }

  // ---- the kernel ----

  function Most(a: nat, b: nat): nat { if a > b then a else b }

  class Kernel {
    const root: Inode
    /** The file system at each moment, whoever changes it. */
    const world: nat -> FS
    const trouble: nat -> bool
    var clock: nat
    var open: map<nat, Inode>
    var next: nat
    /** The most descriptors that were ever open at once. */
    ghost var peak: nat

    ghost predicate Valid()
      reads this
    {
      forall fd :: fd in open ==> fd < next
    }

    constructor (root: Inode, world: nat -> FS, trouble: nat -> bool)
      ensures Valid() && open == map[] && clock == 0 && peak == 0
      ensures this.root == root && this.world == world && this.trouble == trouble
    {
      this.root, this.world, this.trouble := root, world, trouble;
      clock, open, next, peak := 0, map[], 0, 0;
    }

    method Opened(inode: Inode) returns (fd: nat)
      requires Valid()
      modifies this
      ensures Valid() && clock == old(clock)
      ensures fd !in old(open) && open == old(open)[fd := inode]
      ensures peak == Most(old(peak), |old(open)| + 1)
    {
      fd := next;
      next := next + 1;
      open := open[fd := inode];
      assert open.Keys == old(open).Keys + {fd};
      assert |open.Keys| == |open| && |old(open).Keys| == |old(open)|;
      peak := Most(peak, |open|);
    }

    method OpenRoot() returns (r: Result<nat>)
      requires Valid()
      modifies this
      ensures Valid() && clock == old(clock) + 1
      ensures r.Ok? <==> !trouble(old(clock))
      ensures r.Ok? ==> r.value !in old(open) && open == old(open)[r.value := root]
                        && peak == Most(old(peak), |old(open)| + 1)
      ensures r.Err? ==> r.error == EOther && open == old(open) && peak == old(peak)
    {
      var t := clock;
      clock := clock + 1;
      if trouble(t) { return Err(EOther); }
      var fd := Opened(root);
      r := Ok(fd);
    }

    method Openat(dirfd: nat, name: string, directory: bool) returns (r: Result<nat>)
      requires Valid() && dirfd in open
      modifies this
      ensures Valid() && clock == old(clock) + 1
      ensures var step := OpenAt(world(old(clock)), trouble(old(clock)), old(open)[dirfd], name, directory);
              match step
              case Ok(inode) => r.Ok? && r.value !in old(open) && open == old(open)[r.value := inode]
                                && peak == Most(old(peak), |old(open)| + 1)
              case Err(e) => r == Err(e) && open == old(open) && peak == old(peak)
    {
      var t := clock;
      clock := clock + 1;
      match OpenAt(world(t), trouble(t), open[dirfd], name, directory)
      case Err(e) => r := Err(e);
      case Ok(inode) =>
        var fd := Opened(inode);
        r := Ok(fd);
    }

    method Close(fd: nat)
      requires Valid()
      modifies this`open
      ensures Valid() && open == old(open) - {fd}
    {
      open := open - {fd};
    }
  }

  /** The names of a path, as the walk collects them. */
  method CollectNames(path: string) returns (names: seq<string>)
    ensures names == Components(path)
  {
    var parts := Split(path);
    names := [];
    for i := 0 to |parts|
      invariant names == Names(parts[..i])
    {
      assert parts[..i + 1][..i] == parts[..i];
      if parts[i] != "" && parts[i] != "." {
        names := names + [parts[i]];
      }
    }
    assert parts[..|parts|] == parts;
  }

  /** One step of the walk: the next component relative to the descriptor at
      hand, which is closed whatever comes of it. */
  method Descend(k: Kernel, fd: nat, name: string, directory: bool, ghost before: map<nat, Inode>, ghost dir: Inode)
    returns (r: Result<nat>)
    requires k.Valid() && fd !in before && k.open == before[fd := dir]
    modifies k
    ensures k.Valid() && k.clock == old(k.clock) + 1
    ensures k.peak <= Most(old(k.peak), |before| + 2)
    ensures var step := OpenAt(k.world(old(k.clock)), k.trouble(old(k.clock)), dir, name, directory);
            match step
            case Ok(inode) => r.Ok? && r.value !in before && k.open == before[r.value := inode]
            case Err(e) => r == Err(e) && k.open == before
  {
    hide OpenAt;
    OneMore(before, fd, dir);
    r := k.Openat(fd, name, directory);
    k.Close(fd);
    Closed(before, fd, dir);
    if r.Ok? {
      Moved(before, fd, dir, r.value, OpenAt(k.world(old(k.clock)), k.trouble(old(k.clock)), dir, name, directory).value);
    }
  }

  /** The walk. On success exactly the answer's descriptor has been added, on
      failure none, and never were more than two of its own open. */
  method OpenNoFollow(k: Kernel, path: string) returns (r: Result<nat>)
    requires k.Valid()
    modifies k
    ensures k.Valid()
    ensures var t := old(k.clock);
            var walked := if k.trouble(t) then Err(EOther) else Walk(k.world, k.trouble, t + 1, k.root, Components(path));
            match walked
            case Ok(inode) => r.Ok? && r.value !in old(k.open) && k.open == old(k.open)[r.value := inode]
            case Err(e) => r == Err(e) && k.open == old(k.open)
    ensures r.Ok? ==> Linked(k.world, old(k.clock) + 1, k.root, Components(path), k.open[r.value])
    ensures k.peak <= Most(old(k.peak), |old(k.open)| + 2)
  {
    hide Walk, Components, OpenAt, Linked;
    ghost var before := k.open;
    ghost var t := k.clock;
    var rootfd := k.OpenRoot();
    if rootfd.Err? { return Err(rootfd.error); }
    var fd := rootfd.value;
    var names := CollectNames(path);
    ghost var dir := k.root;
    for i := 0 to |names|
      invariant k.Valid() && fd !in before && k.open == before[fd := dir]
      invariant Walk(k.world, k.trouble, t + 1, k.root, names) == Walk(k.world, k.trouble, k.clock, dir, names[i..])
      invariant k.peak <= Most(old(k.peak), |before| + 2)
    {
      WalkStep(k.world, k.trouble, k.clock, dir, names, i);
      ghost var step := OpenAt(k.world(k.clock), k.trouble(k.clock), dir, names[i], i < |names| - 1);
      var next := Descend(k, fd, names[i], i < |names| - 1, before, dir);
      if next.Err? { return Err(next.error); }
      fd, dir := next.value, step.value;
    }
    assert names[|names|..] == [];
    WalkDone(k.world, k.trouble, k.clock, dir);
    WalkIsChain(k.world, k.trouble, t + 1, k.root, names, dir);
    r := Ok(fd);
  }

  lemma {:induction false} WalkStep(
    world: nat -> FS, trouble: nat -> bool, t: nat, dir: Inode, names: seq<string>, i: nat)
    requires i < |names|
    ensures Walk(world, trouble, t, dir, names[i..]) ==
            match OpenAt(world(t), trouble(t), dir, names[i], i < |names| - 1)
            case Err(e) => Err(e)
            case Ok(child) => Walk(world, trouble, t + 1, child, names[i + 1..])
  {
    assert names[i..][0] == names[i] && names[i..][1..] == names[i + 1..];
  }

  lemma {:induction false} WalkDone(world: nat -> FS, trouble: nat -> bool, t: nat, dir: Inode)
    ensures Walk(world, trouble, t, dir, []) == Ok(dir)
  {
  }

  lemma {:induction false} Closed(m: map<nat, Inode>, fd: nat, dir: Inode)
    requires fd !in m
    ensures m[fd := dir] - {fd} == m
  {
  }

  lemma {:induction false} Moved(m: map<nat, Inode>, fd: nat, dir: Inode, fd': nat, child: Inode)
    requires fd !in m && fd' !in m[fd := dir]
    ensures m[fd := dir][fd' := child] - {fd} == m[fd' := child]
  {
  }

  lemma {:induction false} OneMore(m: map<nat, Inode>, fd: nat, inode: Inode)
    requires fd !in m
    ensures |m[fd := inode]| == |m| + 1
  {
    var m' := m[fd := inode];
    assert m'.Keys == m.Keys + {fd};
    assert |m'.Keys| == |m'| && |m.Keys| == |m|;
  }

  // ---- what the walk means ----

  /** At the moment of its step, each directory held the next node under the
      name asked for, and that node was no symlink, nor anything but a
      directory where more names follow. */
  ghost predicate IsChain(world: nat -> FS, t: nat, names: seq<string>, chain: seq<Inode>) {
    |chain| == |names| + 1
    && forall k :: 0 <= k < |names| ==> Leads(world(t + k), chain[k], names[k], chain[k + 1], k < |names| - 1)
  }

  predicate Leads(fs: FS, dir: Inode, name: string, child: Inode, directory: bool) {
    dir in fs && fs[dir].Dir? && name in fs[dir].entries && fs[dir].entries[name] == child
    && child in fs && !fs[child].Symlink? && (directory ==> fs[child].Dir?)
  }

  lemma {:induction false} StepLeads(fs: FS, dir: Inode, name: string, directory: bool, child: Inode)
    ensures OpenAt(fs, false, dir, name, directory) == Ok(child) <==> Leads(fs, dir, name, child, directory)
  {
  }

  ghost predicate Untroubled(trouble: nat -> bool, from: nat, to: nat) {
    forall k :: from <= k < to ==> !trouble(k)
  }

  /** There is such a chain from one node to another. */
  ghost predicate Linked(world: nat -> FS, t: nat, dir: Inode, names: seq<string>, end: Inode) {
    exists chain :: IsChain(world, t, names, chain) && chain[0] == dir && chain[|names|] == end
  }

  /** Whatever others rename meanwhile, a walk succeeds if and only if no step
      met trouble and there was such a chain from the root to its answer. */
  lemma {:induction false} WalkIsChain(world: nat -> FS, trouble: nat -> bool, t: nat, dir: Inode, names: seq<string>, end: Inode)
    ensures Walk(world, trouble, t, dir, names) == Ok(end)
            <==> Untroubled(trouble, t, t + |names|) && Linked(world, t, dir, names, end)
    decreases |names|
  {
    hide Linked;
    if names == [] {
      LinkedToItself(world, t, dir, end);
    } else if !trouble(t) {
      var step := OpenAt(world(t), false, dir, names[0], |names| > 1);
      if step.Ok? {
        StepLeads(world(t), dir, names[0], |names| > 1, step.value);
        WalkIsChain(world, trouble, t + 1, step.value, names[1..], end);
      }
      LinkedOn(world, t, dir, names, end);
      assert Untroubled(trouble, t, t + |names|) <==> Untroubled(trouble, t + 1, t + 1 + |names[1..]|);
    }
  }

  lemma {:induction false} LinkedToItself(world: nat -> FS, t: nat, dir: Inode, end: Inode)
    ensures Linked(world, t, dir, [], end) <==> dir == end
  {
    assert dir == end ==> IsChain(world, t, [], [dir]);
  }

  /** A chain goes on from where its first step leads. */
  lemma {:induction false} LinkedOn(world: nat -> FS, t: nat, dir: Inode, names: seq<string>, end: Inode)
    requires names != []
    ensures var step := OpenAt(world(t), false, dir, names[0], |names| > 1);
            Linked(world, t, dir, names, end) <==> step.Ok? && Linked(world, t + 1, step.value, names[1..], end)
  {
    hide OpenAt;
    var step := OpenAt(world(t), false, dir, names[0], |names| > 1);
    if chain :| IsChain(world, t, names, chain) && chain[0] == dir && chain[|names|] == end {
      assert Leads(world(t + 0), chain[0], names[0], chain[1], 0 < |names| - 1);
      StepLeads(world(t), dir, names[0], |names| > 1, chain[1]);
      ChainTail(world, t, names, chain);
      assert chain[1..][0] == chain[1] && chain[1..][|names| - 1] == end;
    }
    if step.Ok? && Linked(world, t + 1, step.value, names[1..], end) {
      var tail :| IsChain(world, t + 1, names[1..], tail) && tail[0] == step.value && tail[|names| - 1] == end;
      StepLeads(world(t), dir, names[0], |names| > 1, step.value);
      ChainPrepend(world, t, dir, names, tail);
      assert ([dir] + tail)[|names|] == end;
    }
  }

  lemma {:induction false} ChainPrepend(world: nat -> FS, t: nat, dir: Inode, names: seq<string>, tail: seq<Inode>)
    requires names != [] && IsChain(world, t + 1, names[1..], tail)
    requires Leads(world(t), dir, names[0], tail[0], |names| > 1)
    ensures IsChain(world, t, names, [dir] + tail)
  {
    hide Leads;
    var chain := [dir] + tail;
    forall k | 0 <= k < |names| ensures Leads(world(t + k), chain[k], names[k], chain[k + 1], k < |names| - 1) {
      if k > 0 {
        assert Leads(world(t + 1 + (k - 1)), tail[k - 1], names[1..][k - 1], tail[k], k - 1 < |names[1..]| - 1);
      }
    }
  }

  lemma {:induction false} ChainTail(world: nat -> FS, t: nat, names: seq<string>, chain: seq<Inode>)
    requires names != [] && IsChain(world, t, names, chain)
    ensures IsChain(world, t + 1, names[1..], chain[1..])
  {
    hide Leads;
    forall k | 0 <= k < |names[1..]|
      ensures Leads(world(t + 1 + k), chain[1..][k], names[1..][k], chain[1..][k + 1], k < |names[1..]| - 1) {
      assert Leads(world(t + (k + 1)), chain[k + 1], names[k + 1], chain[k + 2], k + 1 < |names| - 1);
    }
  }

  // ---- an unchanging file system ----

  /** Ordinary path resolution, following symlinks: what a plain open does. */
  function Follow(fs: FS, root: Inode, dir: Inode, names: seq<string>, links: nat): Result<Inode>
    decreases links, |names|
  {
    if names == [] then Ok(dir)
    else if dir !in fs then Err(ENOENT)
    else if !fs[dir].Dir? then Err(ENOTDIR)
    else if names[0] !in fs[dir].entries || fs[dir].entries[names[0]] !in fs then Err(ENOENT)
    else
      var child := fs[dir].entries[names[0]];
      match fs[child]
      case Symlink(target) =>
        if links == 0 then Err(ELOOP)
        else
          var start := if target != "" && target[0] == '/' then root else dir;
          Follow(fs, root, start, Components(target) + names[1..], links - 1)
      case _ => Follow(fs, root, child, names[1..], links)
  }

  /** The nodes of a path, one component at a time, as far as it leads without
      following anything. */
  function NodeAt(fs: FS, dir: Inode, names: seq<string>): Option<Inode> {
    if names == [] then Some(dir)
    else match NodeAt(fs, dir, names[..|names| - 1])
      case None => None
      case Some(parent) =>
        if parent in fs && fs[parent].Dir? && names[|names| - 1] in fs[parent].entries
           && fs[parent].entries[names[|names| - 1]] in fs
        then Some(fs[parent].entries[names[|names| - 1]]) else None
  }

  lemma {:induction false} NodeAtFrom(fs: FS, dir: Inode, names: seq<string>)
    requires names != []
    ensures NodeAt(fs, dir, names) ==
            match NodeAt(fs, dir, names[..1]) case None => None case Some(child) => NodeAt(fs, child, names[1..])
  {
    if |names| > 1 {
      var before := names[..|names| - 1];
      NodeAtFrom(fs, dir, before);
      assert before[..1] == names[..1] && before[1..] == names[1..][..|names| - 2];
      assert names[1..][|names| - 2] == names[|names| - 1];
    } else {
      assert names[..1] == names;
      assert NodeAt(fs, dir, names).Some? ==> names[1..] == [];
    }
  }

  /** What can be wrong with the first k names of a path: the last of them is
      missing, or a symlink, or stands where a directory has to. */
  predicate Blocked(fs: FS, dir: Inode, names: seq<string>, k: nat)
    requires 0 < k <= |names|
  {
    NodeAt(fs, dir, names[..k - 1]).Some? &&
    match NodeAt(fs, dir, names[..k])
    case None => true
    case Some(node) => node in fs && (fs[node].Symlink? || (k < |names| && !fs[node].Dir?))
  }

  /** The first name at which the path is blocked. */
  predicate FirstBlock(fs: FS, dir: Inode, names: seq<string>, k: nat)
    requires 0 < k <= |names|
  {
    Blocked(fs, dir, names, k) && forall j :: 0 < j < k ==> !Blocked(fs, dir, names, j)
  }

  lemma {:induction false} BlockedFrom(fs: FS, dir: Inode, names: seq<string>, child: Inode, k: nat)
    requires 0 < k < |names| && NodeAt(fs, dir, names[..1]) == Some(child)
    ensures NodeAt(fs, dir, names[..k + 1]) == NodeAt(fs, child, names[1..][..k])
    ensures Blocked(fs, dir, names, k + 1) == Blocked(fs, child, names[1..], k)
  {
    NodeAtFrom(fs, dir, names[..k + 1]);
    assert names[..k + 1][..1] == names[..1] && names[..k + 1][1..] == names[1..][..k];
    NodeAtFrom(fs, dir, names[..k]);
    assert names[..k][..1] == names[..1] && names[..k][1..] == names[1..][..k - 1];
  }

  lemma {:induction false} NodeAtOne(fs: FS, dir: Inode, names: seq<string>)
    requires names != [] && dir in fs && fs[dir].Dir?
    ensures NodeAt(fs, dir, names[..0]) == Some(dir)
    ensures NodeAt(fs, dir, names[..1]) ==
            if names[0] in fs[dir].entries && fs[dir].entries[names[0]] in fs then Some(fs[dir].entries[names[0]]) else None
  {
    assert names[..0] == [] && names[..1][..0] == [];
  }

  /** On an unchanging file system the walk answers the node the components
      name. It fails exactly when on the way there one is missing, a symlink, or
      no directory with more to come; and reports as absent exactly a path whose
      first such name is missing. */
  lemma {:induction false} StaticWalk(fs: FS, t: nat, dir: Inode, names: seq<string>)
    requires names != [] ==> dir in fs && fs[dir].Dir?
    ensures var r := Walk(_ => fs, _ => false, t, dir, names);
            (r.Ok? ==> NodeAt(fs, dir, names) == Some(r.value))
            && (r.Err? <==> exists k :: 0 < k <= |names| && FirstBlock(fs, dir, names, k))
            && (r == Err(ENOENT) <==>
                  exists k :: 0 < k <= |names| && FirstBlock(fs, dir, names, k) && NodeAt(fs, dir, names[..k]) == None)
    decreases |names|
  {
    if names != [] {
      NodeAtOne(fs, dir, names);
      match OpenAt(fs, false, dir, names[0], |names| > 1)
      case Err(e) =>
        assert FirstBlock(fs, dir, names, 1);
      case Ok(child) =>
        assert !Blocked(fs, dir, names, 1);
        StaticWalk(fs, t + 1, child, names[1..]);
        StaticRest(fs, dir, names, child);
    }
  }

  lemma {:induction false} StaticRest(fs: FS, dir: Inode, names: seq<string>, child: Inode)
    requires names != [] && NodeAt(fs, dir, names[..1]) == Some(child) && !Blocked(fs, dir, names, 1)
    ensures NodeAt(fs, dir, names) == NodeAt(fs, child, names[1..])
    ensures forall k :: 0 < k < |names| ==>
              FirstBlock(fs, dir, names, k + 1) == FirstBlock(fs, child, names[1..], k)
              && NodeAt(fs, dir, names[..k + 1]) == NodeAt(fs, child, names[1..][..k])
    ensures forall k :: 0 < k <= |names| && FirstBlock(fs, dir, names, k) ==> k > 1
    ensures (exists k :: 0 < k <= |names| && FirstBlock(fs, dir, names, k))
            <==> exists k :: 0 < k <= |names[1..]| && FirstBlock(fs, child, names[1..], k)
    ensures (exists k :: 0 < k <= |names| && FirstBlock(fs, dir, names, k) && NodeAt(fs, dir, names[..k]) == None)
            <==> exists k :: 0 < k <= |names[1..]| && FirstBlock(fs, child, names[1..], k)
                             && NodeAt(fs, child, names[1..][..k]) == None
  {
    hide NodeAt, Blocked;
    NodeAtFrom(fs, dir, names);
    forall k | 0 < k < |names|
      ensures Blocked(fs, dir, names, k + 1) == Blocked(fs, child, names[1..], k)
      ensures NodeAt(fs, dir, names[..k + 1]) == NodeAt(fs, child, names[1..][..k]) {
      BlockedFrom(fs, dir, names, child, k);
    }
    forall k | 0 < k < |names|
      ensures FirstBlock(fs, dir, names, k + 1) == FirstBlock(fs, child, names[1..], k) {
      FirstBlockFrom(fs, dir, names, child, k);
    }
    if k :| 0 < k <= |names| && FirstBlock(fs, dir, names, k) {
      assert FirstBlock(fs, child, names[1..], k - 1);
    }
    if k :| 0 < k <= |names[1..]| && FirstBlock(fs, child, names[1..], k) {
      assert FirstBlock(fs, dir, names, k + 1);
    }
    if k :| 0 < k <= |names| && FirstBlock(fs, dir, names, k) && NodeAt(fs, dir, names[..k]) == None {
      assert FirstBlock(fs, child, names[1..], k - 1) && NodeAt(fs, child, names[1..][..k - 1]) == None;
    }
    if k :| 0 < k <= |names[1..]| && FirstBlock(fs, child, names[1..], k) && NodeAt(fs, child, names[1..][..k]) == None {
      assert FirstBlock(fs, dir, names, k + 1) && NodeAt(fs, dir, names[..k + 1]) == None;
    }
  }

  lemma {:induction false} FirstBlockFrom(fs: FS, dir: Inode, names: seq<string>, child: Inode, k: nat)
    requires 0 < k < |names| && NodeAt(fs, dir, names[..1]) == Some(child) && !Blocked(fs, dir, names, 1)
    ensures FirstBlock(fs, dir, names, k + 1) == FirstBlock(fs, child, names[1..], k)
  {
    hide NodeAt, Blocked;
    forall j | 0 < j <= k ensures Blocked(fs, dir, names, j + 1) == Blocked(fs, child, names[1..], j) {
      BlockedFrom(fs, dir, names, child, j);
    }
    if FirstBlock(fs, dir, names, k + 1) {
      forall j | 0 < j < k ensures !Blocked(fs, child, names[1..], j) {
        assert !Blocked(fs, dir, names, j + 1);
      }
    }
    if FirstBlock(fs, child, names[1..], k) {
      forall j | 0 < j < k + 1 ensures !Blocked(fs, dir, names, j) {
        if j > 1 {
          assert !Blocked(fs, child, names[1..], j - 1);
        }
      }
    }
  }

  /** Where the walk succeeds, an ordinary open of the path would have reached
      the same node: refusing symlinks never leads anywhere else. */
  lemma {:induction false} AgreesWithFollow(fs: FS, root: Inode, t: nat, dir: Inode, names: seq<string>, links: nat)
    requires Walk(_ => fs, _ => false, t, dir, names).Ok?
    ensures Follow(fs, root, dir, names, links) == Walk(_ => fs, _ => false, t, dir, names)
    decreases |names|
  {
    if names != [] {
      var child := OpenAt(fs, false, dir, names[0], |names| > 1).value;
      AgreesWithFollow(fs, root, t + 1, child, names[1..], links);
    }
  }
}
