/**
 * The agent as PID 1: it is the parent of the processes it starts, whose exit
 * their own Wait collects, and becomes the parent of every orphan in the pod,
 * which the reaper collects. Both are goroutines over one process table; a
 * step is one system call or one shared-memory operation. Pids are not reused.
 */
module Reaper {
  import opened Common

  type Pid = nat

  /** The agent. */
  const SELF: Pid := 1

  datatype Proc = Running(parent: Pid) | Zombie(parent: Pid)

  /** A child the agent started, from its fork to the close of `done`. */
  datatype Stage = Spawned | Stored | Collected | Recorded | Disowned | Announced

  /** `waited` is the exit code its Wait came back with. */
  datatype Child = Child(stage: Stage, waited: int, exitCode: int)

  /** ExitCode() of a Wait that found no such child. */
  const NO_STATUS: int := -1

  datatype Sweep =
    | Resting
    | Reading(unread: set<Pid>, zombies: set<Pid>)
    | Checking(unchecked: set<Pid>)
    | Waiting(pid: Pid, unchecked: set<Pid>)

  /** `children` is what owns() looks up; `used` all pids so far; `truth` what
      each process exited with; `due` the unowned zombies there were when the
      present sweep began; `reaped` what the reaper's Wait4 has collected. */
  datatype State = State(
    table: map<Pid, Proc>,
    used: set<Pid>,
    truth: map<Pid, int>,
    started: map<Pid, Child>,
    children: set<Pid>,
    sweep: Sweep,
    due: set<Pid>,
    reaped: set<Pid>)

  datatype Action =
    | Spawn(pid: Pid)
    | Store(pid: Pid)
    | Fork(parent: Pid, pid: Pid)
    | Exit(pid: Pid, status: int)
    | ParentReaps(pid: Pid)
    | WaitReturns(pid: Pid)
    | WaitFails(pid: Pid)
    | Record(pid: Pid)
    | Disown(pid: Pid)
    | Announce(pid: Pid)
    | BeginSweep(listed: set<Pid>)
    | ReadStat(pid: Pid)
    | BeginChecks
    | Check(pid: Pid)
    | Wait4
    | EndSweep

  function Initial(): State {
    State(map[SELF := Running(0)], {0, SELF}, map[], map[], {}, Resting, {}, {})
  }

  predicate InStage(s: State, pid: Pid, stage: Stage) {
    pid in s.started && s.started[pid].stage == stage
  }

  predicate IsOrphanZombie(table: map<Pid, Proc>, pid: Pid) {
    pid in table && table[pid] == Zombie(SELF)
  }

  predicate Enabled(s: State, a: Action) {
    match a
    case Spawn(pid) => pid !in s.used
    case Store(pid) => InStage(s, pid, Spawned)
    case Fork(parent, pid) => pid !in s.used && parent != SELF && parent in s.table && s.table[parent].Running?
    case Exit(pid, _) => pid != SELF && pid in s.table && s.table[pid].Running?
    case ParentReaps(pid) => pid in s.table && s.table[pid].Zombie? && s.table[pid].parent != SELF
    case WaitReturns(pid) => InStage(s, pid, Stored) && IsOrphanZombie(s.table, pid) && pid in s.truth
    case WaitFails(pid) => InStage(s, pid, Stored) && pid !in s.table
    case Record(pid) => InStage(s, pid, Collected)
    case Disown(pid) => InStage(s, pid, Recorded)
    case Announce(pid) => InStage(s, pid, Disowned)
    case BeginSweep(listed) => s.sweep.Resting? && s.table.Keys <= listed
    case ReadStat(pid) => s.sweep.Reading? && pid in s.sweep.unread
    case BeginChecks => s.sweep.Reading? && s.sweep.unread == {}
    case Check(pid) => s.sweep.Checking? && pid in s.sweep.unchecked
    case Wait4 => s.sweep.Waiting?
    case EndSweep => s.sweep.Checking? && s.sweep.unchecked == {}
  }

  /** When a process ends it is a zombie, and PID 1 the parent of its children. */
  function Ended(table: map<Pid, Proc>, pid: Pid): map<Pid, Proc>
    requires pid in table
  {
    map p | p in table ::
      if p == pid then Zombie(table[p].parent)
      else if table[p].parent == pid then table[p].(parent := SELF)
      else table[p]
  }

  function ToStage(s: State, pid: Pid, stage: Stage): State
    requires pid in s.started
  {
    s.(started := s.started[pid := s.started[pid].(stage := stage)])
  }

  function Apply(s: State, a: Action): State
    requires Enabled(s, a)
  {
    match a
    case Spawn(pid) =>
      s.(table := s.table[pid := Running(SELF)], used := s.used + {pid}, started := s.started[pid := Child(Spawned, 0, 0)])
    case Store(pid) => ToStage(s, pid, Stored).(children := s.children + {pid})
    case Fork(parent, pid) => s.(table := s.table[pid := Running(parent)], used := s.used + {pid})
    case Exit(pid, status) => s.(table := Ended(s.table, pid), truth := s.truth[pid := status])
    case ParentReaps(pid) => s.(table := s.table - {pid})
    case WaitReturns(pid) =>
      s.(started := s.started[pid := Child(Collected, s.truth[pid], 0)], table := s.table - {pid})
    case WaitFails(pid) => s.(started := s.started[pid := Child(Collected, NO_STATUS, 0)])
    case Record(pid) => s.(started := s.started[pid := Child(Recorded, s.started[pid].waited, s.started[pid].waited)])
    case Disown(pid) => ToStage(s, pid, Disowned).(children := s.children - {pid})
    case Announce(pid) => ToStage(s, pid, Announced)
    case BeginSweep(listed) =>
      s.(sweep := Reading(listed, {}), due := set p | p in s.table && s.table[p] == Zombie(SELF) && p !in s.children)
    case ReadStat(pid) =>
      var zombies := if IsOrphanZombie(s.table, pid) then s.sweep.zombies + {pid} else s.sweep.zombies;
      s.(sweep := Reading(s.sweep.unread - {pid}, zombies))
    case BeginChecks => s.(sweep := Checking(s.sweep.zombies))
    case Check(pid) =>
      s.(sweep := if pid in s.children then Checking(s.sweep.unchecked - {pid})
                  else Waiting(pid, s.sweep.unchecked - {pid}))
    case Wait4 =>
      var pid, s' := s.sweep.pid, s.(sweep := Checking(s.sweep.unchecked));
      if IsOrphanZombie(s.table, pid) then s'.(table := s.table - {pid}, reaped := s.reaped + {pid}) else s'
    case EndSweep => s.(sweep := Resting)
  }

  /** What exited() answers: the exit code once `done` is closed. */
  function Reported(s: State, pid: Pid): Option<int> {
    if InStage(s, pid, Announced) then Some(s.started[pid].exitCode) else None
  }

  /** No child becomes a zombie before its pid is stored. */
  predicate Assumed(s: State, a: Action)
    requires Enabled(s, a)
  {
    a.Exit? ==> !InStage(s, a.pid, Spawned)
  }

  predicate Runs(s: State, run: seq<Action>)
    decreases |run|
  {
    run == [] || (Enabled(s, run[0]) && Runs(Apply(s, run[0]), run[1..]))
  }

  predicate AssumedRun(s: State, run: seq<Action>)
    requires Runs(s, run)
    decreases |run|
  {
    run == [] || (Assumed(s, run[0]) && AssumedRun(Apply(s, run[0]), run[1..]))
  }

  function After(s: State, run: seq<Action>): State
    requires Runs(s, run)
    decreases |run|
  {
    if run == [] then s else After(Apply(s, run[0]), run[1..])
  }

  // ---- the invariant ----

  /** Where an own child is, by its stage. */
  predicate ChildOk(pid: Pid, c: Child, table: map<Pid, Proc>, truth: map<Pid, int>, children: set<Pid>) {
    match c.stage
    case Spawned => pid in table && table[pid] == Running(SELF) && pid !in children
    case Stored => pid in table && table[pid].parent == SELF && pid in children
    case Collected => pid !in table && pid in children && pid in truth && c.waited == truth[pid]
    case Recorded => pid !in table && pid in children && pid in truth && c.exitCode == truth[pid]
    case Disowned => pid !in table && pid !in children && pid in truth && c.exitCode == truth[pid]
    case Announced => pid !in table && pid !in children && pid in truth && c.exitCode == truth[pid]
  }

  predicate ChildrenOk(s: State) {
    forall pid :: pid in s.started ==> ChildOk(pid, s.started[pid], s.table, s.truth, s.children)
  }

  predicate TableOk(s: State) {
    && s.table.Keys <= s.used && s.started.Keys <= s.used && s.reaped <= s.used && s.truth.Keys <= s.used
    && s.children <= s.started.Keys
    && SELF in s.table && s.table[SELF].Running? && SELF !in s.started
    && (forall pid :: pid in s.table && s.table[pid].Zombie? ==> pid in s.truth)
    && (forall pid :: pid in s.table && s.table[pid].Running? ==> pid !in s.truth)
    && (forall pid :: pid in s.reaped ==> pid !in s.started && pid !in s.table)
  }

  /** Once seen as a zombie of the agent's, a process is one until collected. */
  predicate SeenOk(table: map<Pid, Proc>, used: set<Pid>, seen: set<Pid>) {
    forall pid :: pid in seen ==> pid in used && (pid in table ==> table[pid] == Zombie(SELF))
  }

  function Seen(sweep: Sweep): set<Pid> {
    match sweep
    case Resting => {}
    case Reading(_, zombies) => zombies
    case Checking(unchecked) => unchecked
    case Waiting(pid, unchecked) => unchecked + {pid}
  }

  /** What the sweep has still to come to. */
  function Ahead(sweep: Sweep): set<Pid> {
    match sweep
    case Resting => {}
    case Reading(unread, zombies) => unread + zombies
    case Checking(unchecked) => unchecked
    case Waiting(pid, unchecked) => unchecked + {pid}
  }

  predicate SweepOk(s: State) {
    && SeenOk(s.table, s.used, Seen(s.sweep))
    && (s.sweep.Waiting? ==> s.sweep.pid !in s.children && (s.sweep.pid in s.table ==> s.sweep.pid !in s.started))
    && SeenOk(s.table, s.used, s.due)
    && (forall pid :: pid in s.due ==> pid !in s.started)
    && (!s.sweep.Resting? ==> forall pid :: pid in s.due && pid in s.table ==> pid in Ahead(s.sweep))
  }

  predicate Inv(s: State) {
    ChildrenOk(s) && TableOk(s) && SweepOk(s)
  }

  // ---- every step keeps it ----

  lemma {:induction false} StoreKeeps(s: State, pid: Pid)
    requires Inv(s) && Enabled(s, Store(pid))
    ensures Inv(Apply(s, Store(pid)))
  {
    hide SeenOk, Seen, Ahead;
  }

  lemma {:induction false} SpawnKeeps(s: State, pid: Pid)
    requires Inv(s) && Enabled(s, Spawn(pid))
    ensures Inv(Apply(s, Spawn(pid)))
  {
  }

  lemma {:induction false} ForkKeeps(s: State, a: Action)
    requires Inv(s) && Enabled(s, a) && a.Fork?
    ensures Inv(Apply(s, a))
  {
  }

  /** Ending one process changes no other zombie and no child of the agent. */
  lemma {:induction false} EndedKeeps(table: map<Pid, Proc>, pid: Pid)
    requires pid in table && table[pid].Running? && pid != SELF
    ensures Ended(table, pid).Keys == table.Keys
    ensures Ended(table, pid)[pid] == Zombie(table[pid].parent)
    ensures forall p :: p in table && p != pid && table[p].parent == SELF ==> Ended(table, pid)[p] == table[p]
    ensures forall p :: p in table && p != pid ==> Ended(table, pid)[p].Zombie? == table[p].Zombie?
  {
  }

  lemma {:induction false} ExitKeeps(s: State, a: Action)
    requires Inv(s) && Enabled(s, a) && a.Exit? && Assumed(s, a)
    ensures Inv(Apply(s, a))
  {
    hide Ended, SeenOk, Seen, Ahead;
    EndedKeeps(s.table, a.pid);
    SeenEnds(s.table, s.used, Seen(s.sweep), a.pid);
    SeenEnds(s.table, s.used, s.due, a.pid);
  }

  lemma {:induction false} SeenEnds(table: map<Pid, Proc>, used: set<Pid>, seen: set<Pid>, pid: Pid)
    requires SeenOk(table, used, seen) && pid in table && table[pid].Running? && pid != SELF
    ensures SeenOk(Ended(table, pid), used, seen)
  {
    hide Ended;
    EndedKeeps(table, pid);
  }

  lemma {:induction false} CollectKeeps(s: State, a: Action)
    requires Inv(s) && Enabled(s, a) && (a.ParentReaps? || a.WaitReturns? || a.WaitFails?)
    ensures Inv(Apply(s, a))
  {
  }

  lemma {:induction false} ChildKeeps(s: State, a: Action)
    requires Inv(s) && Enabled(s, a) && (a.Record? || a.Disown? || a.Announce?)
    ensures Inv(Apply(s, a))
  {
    hide SeenOk, Seen, Ahead;
  }

  lemma {:induction false} SweepKeeps(s: State, a: Action)
    requires Inv(s) && Enabled(s, a)
    requires a.BeginSweep? || a.ReadStat? || a.BeginChecks? || a.Check? || a.EndSweep?
    ensures Inv(Apply(s, a))
  {
    if a.BeginSweep? || a.Check? {
      UnownedIsOrphan(s);
    }
    hide ChildOk;
  }

  /** A zombie of the agent's that nobody owns is no child it started. */
  lemma {:induction false} UnownedIsOrphan(s: State)
    requires Inv(s)
    ensures forall pid :: IsOrphanZombie(s.table, pid) && pid !in s.children ==> pid !in s.started
  {
  }

  lemma {:induction false} Wait4Keeps(s: State)
    requires Inv(s) && Enabled(s, Wait4)
    ensures Inv(Apply(s, Wait4))
    ensures Apply(s, Wait4).table.Keys != s.table.Keys ==> s.sweep.pid !in s.started
  {
  }

  lemma {:induction false} StepKeeps(s: State, a: Action)
    requires Inv(s) && Enabled(s, a) && Assumed(s, a)
    ensures Inv(Apply(s, a))
  {
    hide Inv, Apply, Enabled;
    match a
    case Spawn(pid) => SpawnKeeps(s, pid);
    case Store(pid) => StoreKeeps(s, pid);
    case Fork(_, _) => ForkKeeps(s, a);
    case Exit(_, _) => ExitKeeps(s, a);
    case ParentReaps(_) => CollectKeeps(s, a);
    case WaitReturns(_) => CollectKeeps(s, a);
    case WaitFails(_) => CollectKeeps(s, a);
    case Record(_) => ChildKeeps(s, a);
    case Disown(_) => ChildKeeps(s, a);
    case Announce(_) => ChildKeeps(s, a);
    case Wait4 => Wait4Keeps(s);
    case _ => SweepKeeps(s, a);
  }

  lemma {:induction false} RunKeeps(s: State, run: seq<Action>)
    requires Inv(s) && Runs(s, run) && AssumedRun(s, run)
    ensures Inv(After(s, run))
    decreases |run|
  {
    hide Inv, Apply, Enabled, Assumed;
    if run != [] {
      StepKeeps(s, run[0]);
      RunKeeps(Apply(s, run[0]), run[1..]);
    }
  }

  lemma {:induction false} InitialKeeps()
    ensures Inv(Initial())
  {
  }

  // ---- every run ----

  /** In every interleaving of starts, exits, Waits and sweeps the reaper
      collects no child the agent started; a status that is reported is the one
      the process exited with; and a child whose Wait has yet to collect it is
      still there for it. */
  lemma {:induction false} NeverCompetes(run: seq<Action>)
    requires Runs(Initial(), run) && AssumedRun(Initial(), run)
    ensures var s := After(Initial(), run);
            && (forall pid :: pid in s.reaped ==> pid !in s.started)
            && (forall pid :: Reported(s, pid).Some? ==> pid in s.truth && Reported(s, pid).value == s.truth[pid])
            && (forall pid :: InStage(s, pid, Stored) ==> pid in s.table && s.table[pid].parent == SELF)
  {
    hide Runs, AssumedRun, After, SweepOk;
    InitialKeeps();
    RunKeeps(Initial(), run);
  }

  /** At the end of a sweep, every unowned zombie of the agent's that was there
      when it began has been collected. */
  lemma {:induction false} SweepCollectsAll(s: State, listed: set<Pid>, run: seq<Action>)
    requires Inv(s) && Enabled(s, BeginSweep(listed)) && Runs(Apply(s, BeginSweep(listed)), run)
    requires AssumedRun(Apply(s, BeginSweep(listed)), run)
    requires forall k :: 0 <= k < |run| ==> !run[k].EndSweep?
    ensures var t := After(Apply(s, BeginSweep(listed)), run);
            Enabled(t, EndSweep) ==>
              forall pid :: IsOrphanZombie(s.table, pid) && pid !in s.children ==> pid !in t.table
  {
    hide Inv, Runs, AssumedRun, After;
    var s' := Apply(s, BeginSweep(listed));
    SweepKeeps(s, BeginSweep(listed));
    RunKeeps(s', run);
    SameDue(s', run);
    if Enabled(After(s', run), EndSweep) {
      SweptClean(After(s', run));
    }
  }

  lemma {:induction false} SweptClean(t: State)
    requires Inv(t) && Enabled(t, EndSweep)
    ensures forall pid :: pid in t.due ==> pid !in t.table
  {
    hide ChildrenOk, TableOk;
  }

  /** Within a sweep nothing changes what was due at its start. */
  lemma {:induction false} SameDue(s: State, run: seq<Action>)
    requires Runs(s, run) && !s.sweep.Resting? && forall k :: 0 <= k < |run| ==> !run[k].EndSweep?
    ensures After(s, run).due == s.due
    decreases |run|
  {
    if run != [] {
      assert !run[0].EndSweep?;
      var next := Apply(s, run[0]);
      assert !next.sweep.Resting? && next.due == s.due;
      hide Apply, Enabled;
      SameDue(next, run[1..]);
    }
  }

  /** A status once reported is reported for ever. */
  lemma {:induction false} ReportStays(s: State, run: seq<Action>, pid: Pid)
    requires Runs(s, run) && s.started.Keys <= s.used && Reported(s, pid).Some?
    ensures Reported(After(s, run), pid) == Reported(s, pid)
    decreases |run|
  {
    if run != [] {
      var next := Apply(s, run[0]);
      assert next.started.Keys <= next.used && Reported(next, pid) == Reported(s, pid);
      hide Apply, Enabled, Reported;
      ReportStays(next, run[1..], pid);
    }
  }

  // ---- the assumption is needed ----

  lemma {:induction false} Append(s: State, run: seq<Action>, a: Action)
    requires Runs(s, run) && Enabled(After(s, run), a)
    ensures Runs(s, run + [a]) && After(s, run + [a]) == Apply(After(s, run), a)
    decreases |run|
  {
    hide Enabled, Apply;
    if run == [] {
      assert run + [a] == [a] && [a][1..] == [];
    } else {
      Append(Apply(s, run[0]), run[1..], a);
      assert (run + [a])[1..] == run[1..] + [a];
    }
  }

  /** A child that is a zombie before its pid is stored. */
  lemma {:induction false} EarlyExit(pid: Pid, status: int) returns (run: seq<Action>)
    requires pid > 1
    ensures Runs(Initial(), run)
    ensures var s := After(Initial(), run);
            s.table == map[SELF := Running(0), pid := Zombie(SELF)] && s.children == {} && s.sweep.Resting?
            && InStage(s, pid, Spawned) && s.reaped == {} && s.started.Keys <= s.used
            && pid in s.truth && s.truth[pid] == status
  {
    hide Runs, After;
    assert Runs(Initial(), []) && After(Initial(), []) == Initial() by { NoSteps(Initial()); }
    run := [];
    Append(Initial(), run, Spawn(pid));
    run := run + [Spawn(pid)];
    var s := After(Initial(), run);
    assert s.table == map[SELF := Running(0), pid := Running(SELF)];
    Append(Initial(), run, Exit(pid, status));
    run := run + [Exit(pid, status)];
    assert Ended(s.table, pid) == map[SELF := Running(0), pid := Zombie(SELF)];
  }

  lemma {:induction false} NoSteps(s: State)
    ensures Runs(s, []) && After(s, []) == s
  {
  }

  /** A sweep that takes such a child. */
  lemma {:induction false} EarlyExitIsSwept(pid: Pid, status: int) returns (run: seq<Action>)
    requires pid > 1
    ensures Runs(Initial(), run)
    ensures var s := After(Initial(), run);
            pid in s.reaped && InStage(s, pid, Stored) && pid !in s.table && s.started.Keys <= s.used
            && pid in s.truth && s.truth[pid] == status
  {
    hide Runs, After;
    run := EarlyExit(pid, status);
    Append(Initial(), run, BeginSweep({SELF, pid}));
    run := run + [BeginSweep({SELF, pid})];
    Append(Initial(), run, ReadStat(SELF));
    run := run + [ReadStat(SELF)];
    Append(Initial(), run, ReadStat(pid));
    run := run + [ReadStat(pid)];
    assert After(Initial(), run).sweep == Reading({}, {pid});
    Append(Initial(), run, BeginChecks);
    run := run + [BeginChecks];
    Append(Initial(), run, Check(pid));
    run := run + [Check(pid)];
    Append(Initial(), run, Wait4);
    run := run + [Wait4];
    Append(Initial(), run, Store(pid));
    run := run + [Store(pid)];
  }

  /** Without the assumption the reaper does compete: a sweep takes a child that
      became a zombie before its pid was stored, its Wait fails at once, and the
      exit code reported is -1, whatever it was, from then on for ever. */
  lemma {:induction false} EarlyExitIsStolen(pid: Pid, status: int, more: seq<Action>) returns (run: seq<Action>)
    requires pid > 1
    ensures Runs(Initial(), run) && pid in After(Initial(), run).reaped
    ensures pid in After(Initial(), run).truth && After(Initial(), run).truth[pid] == status
    ensures Runs(After(Initial(), run), more) ==>
              Reported(After(After(Initial(), run), more), pid) == Some(NO_STATUS)
  {
    hide Runs, After;
    run := EarlyExitIsSwept(pid, status);
    Append(Initial(), run, WaitFails(pid));
    run := run + [WaitFails(pid)];
    Append(Initial(), run, Record(pid));
    run := run + [Record(pid)];
    Append(Initial(), run, Disown(pid));
    run := run + [Disown(pid)];
    Append(Initial(), run, Announce(pid));
    run := run + [Announce(pid)];
    if Runs(After(Initial(), run), more) {
      ReportStays(After(Initial(), run), more, pid);
    }
  }

  // ---- the assumption is exact ----

  /** The reaper has collected a child that the agent started. */
  ghost predicate Stolen(s: State) {
    exists pid :: pid in s.reaped && pid in s.started
  }

  /** A child of the agent's that nobody owns is a zombie, or was collected. */
  predicate Exposed(s: State, pid: Pid) {
    pid !in s.children && (IsOrphanZombie(s.table, pid) || pid in s.reaped)
  }

  /** A step of the reaper. */
  predicate IsSweep(a: Action) {
    a.BeginSweep? || a.ReadStat? || a.BeginChecks? || a.Check? || a.Wait4? || a.EndSweep?
  }

  /** What a sweep has still to do. */
  function ToDo(sweep: Sweep): nat {
    match sweep
    case Resting => 0
    case Reading(unread, zombies) => 4 * |unread| + 3 * |zombies| + 3
    case Checking(unchecked) => 3 * |unchecked| + 1
    case Waiting(_, unchecked) => 3 * |unchecked| + 2
  }

  lemma {:induction false} Removed<T>(xs: set<T>, x: T)
    requires x in xs
    ensures |xs - {x}| == |xs| - 1
  {
  }

  lemma {:induction false} Added<T>(xs: set<T>, x: T)
    ensures |xs + {x}| <= |xs| + 1
  {
    if x in xs {
      assert xs + {x} == xs;
    }
  }

  /** The step leaves less to do, and an exposed child exposed; and one that the
      sweep has not come to yet stays ahead of it, or is collected. */
  predicate Advances(s: State, t: State, pid: Pid) {
    && Exposed(t, pid) && ToDo(t.sweep) < ToDo(s.sweep) && t.started == s.started
    && (pid in s.reaped ==> pid in t.reaped)
    && (pid in Ahead(s.sweep) ==> pid in Ahead(t.sweep) || pid in t.reaped)
  }

  lemma {:induction false} ReadAdvances(s: State, pid: Pid, p: Pid)
    requires Exposed(s, pid) && Enabled(s, ReadStat(p))
    ensures Advances(s, Apply(s, ReadStat(p)), pid)
  {
    Removed(s.sweep.unread, p);
    Added(s.sweep.zombies, p);
  }

  lemma {:induction false} CheckAdvances(s: State, pid: Pid, p: Pid)
    requires Exposed(s, pid) && Enabled(s, Check(p))
    ensures Advances(s, Apply(s, Check(p)), pid)
  {
    Removed(s.sweep.unchecked, p);
  }

  lemma {:induction false} ChecksAdvance(s: State, pid: Pid)
    requires Exposed(s, pid) && Enabled(s, BeginChecks)
    ensures Advances(s, Apply(s, BeginChecks), pid)
  {
    assert s.sweep.unread + s.sweep.zombies == s.sweep.zombies;
  }

  lemma {:induction false} WaitAdvances(s: State, pid: Pid)
    requires Exposed(s, pid) && Enabled(s, Wait4)
    ensures Advances(s, Apply(s, Wait4), pid)
  {
    var p, t := s.sweep.pid, Apply(s, Wait4);
    assert t.sweep == Checking(s.sweep.unchecked) && t.started == s.started && t.children == s.children;
    assert s.reaped <= t.reaped;
    if p == pid {
      assert pid in t.reaped;
    } else {
      assert IsOrphanZombie(s.table, pid) ==> IsOrphanZombie(t.table, pid);
    }
  }

  lemma {:induction false} RestAdvances(s: State, pid: Pid)
    requires Exposed(s, pid) && Enabled(s, EndSweep)
    ensures Advances(s, Apply(s, EndSweep), pid)
  {
  }

  /** A sweep under way can always go on. */
  lemma {:induction false} SweepStep(s: State, pid: Pid) returns (a: Action)
    requires Exposed(s, pid) && !s.sweep.Resting?
    ensures Enabled(s, a) && IsSweep(a) && Advances(s, Apply(s, a), pid)
  {
    hide Exposed, Advances, Apply;
    match s.sweep
    case Reading(unread, zombies) =>
      if unread == {} {
        a := BeginChecks;
        ChecksAdvance(s, pid);
      } else {
        var p :| p in unread;
        a := ReadStat(p);
        ReadAdvances(s, pid, p);
      }
    case Checking(unchecked) =>
      if unchecked == {} {
        a := EndSweep;
        RestAdvances(s, pid);
      } else {
        var p :| p in unchecked;
        a := Check(p);
        CheckAdvances(s, pid, p);
      }
    case Waiting(_, _) =>
      a := Wait4;
      WaitAdvances(s, pid);
  }

  lemma {:induction false} Prepend(s: State, a: Action, rest: seq<Action>)
    requires Enabled(s, a) && Runs(Apply(s, a), rest)
    ensures Runs(s, [a] + rest) && After(s, [a] + rest) == After(Apply(s, a), rest)
    ensures AssumedRun(s, [a] + rest) <==> Assumed(s, a) && AssumedRun(Apply(s, a), rest)
  {
    hide Enabled, Apply, Assumed;
    assert ([a] + rest)[1..] == rest;
  }

  /** The reaper alone can end its sweep, and then has collected an exposed child
      that was ahead of it. */
  lemma {:induction false} SweepEnds(s: State, pid: Pid) returns (run: seq<Action>)
    requires Exposed(s, pid)
    ensures Runs(s, run) && AssumedRun(s, run) && forall k :: 0 <= k < |run| ==> IsSweep(run[k])
    ensures Exposed(After(s, run), pid) && After(s, run).sweep.Resting? && After(s, run).started == s.started
    ensures pid in s.reaped || pid in Ahead(s.sweep) ==> pid in After(s, run).reaped
    decreases ToDo(s.sweep)
  {
    hide Apply, Enabled, Exposed, ToDo;
    if s.sweep.Resting? {
      run := [];
    } else {
      var a := SweepStep(s, pid);
      var rest := SweepEnds(Apply(s, a), pid);
      Prepend(s, a, rest);
      run := [a] + rest;
    }
  }

  /** No zombie stays: one that nobody owns is collected, by steps of the reaper
      alone, in the sweep after the present one at the latest. */
  lemma {:induction false} OrphanIsCollected(s: State, pid: Pid) returns (run: seq<Action>)
    requires Exposed(s, pid)
    ensures Runs(s, run) && AssumedRun(s, run) && forall k :: 0 <= k < |run| ==> IsSweep(run[k])
    ensures pid in After(s, run).reaped && After(s, run).started == s.started
  {
    hide Runs, AssumedRun, After, ToDo;
    var first := SweepEnds(s, pid);
    var t := After(s, first);
    var a := BeginSweep(t.table.Keys + {pid});
    var second := SweepEnds(Apply(t, a), pid);
    Prepend(t, a, second);
    Concat(s, first, [a] + second);
    run := first + ([a] + second);
  }

  lemma {:induction false} ExposedIsStolen(s: State, pid: Pid) returns (run: seq<Action>)
    requires Exposed(s, pid) && pid in s.started
    ensures Runs(s, run) && AssumedRun(s, run) && Stolen(After(s, run))
  {
    hide Runs, AssumedRun, After, Exposed;
    run := OrphanIsCollected(s, pid);
  }

  lemma {:induction false} Concat(s: State, run: seq<Action>, more: seq<Action>)
    requires Runs(s, run) && Runs(After(s, run), more)
    ensures Runs(s, run + more) && After(s, run + more) == After(After(s, run), more)
    ensures AssumedRun(s, run + more) <==> AssumedRun(s, run) && AssumedRun(After(s, run), more)
    decreases |run|
  {
    hide Enabled, Apply, Assumed;
    if run == [] {
      assert run + more == more;
    } else {
      Concat(Apply(s, run[0]), run[1..], more);
      assert (run + more)[1..] == run[1..] + more;
    }
  }

  lemma {:induction false} EarlyExitExposes(s: State, a: Action)
    requires Inv(s) && Enabled(s, a) && !Assumed(s, a)
    ensures Exposed(Apply(s, a), a.pid) && a.pid in Apply(s, a).started
  {
    EndedKeeps(s.table, a.pid);
    hide Ended;
  }

  /** The assumption is the weakest that does. From a state in order, a step
      meets it if and only if no assumed continuation has the reaper collect a
      child that the agent started: the window is from the fork of a child to
      the store of its pid, and an exit within it is all that can do harm. */
  lemma {:induction false} AssumptionIsExact(s: State, a: Action)
    requires Inv(s) && Enabled(s, a)
    ensures Assumed(s, a) <==> forall run ::
              Runs(Apply(s, a), run) && AssumedRun(Apply(s, a), run) ==> !Stolen(After(Apply(s, a), run))
  {
    hide Inv, Runs, AssumedRun, After, Stolen, Enabled, Apply, Exposed;
    var t := Apply(s, a);
    if Assumed(s, a) {
      hide Assumed;
      StepKeeps(s, a);
      forall run | Runs(t, run) && AssumedRun(t, run) ensures !Stolen(After(t, run)) {
        RunKeeps(t, run);
        NothingStolen(After(t, run));
      }
    } else {
      EarlyExitExposes(s, a);
      var run := ExposedIsStolen(t, a.pid);
    }
  }

  lemma {:induction false} NothingStolen(s: State)
    requires Inv(s)
    ensures !Stolen(s)
  {
    hide ChildrenOk, SweepOk;
  }

  // ---- what becomes of every process ----

  /** A detached process outlives its parent as a child of the agent, and is its
      zombie when it ends. */
  lemma {:induction false} OrphanIsAdopted(s: State, parent: Pid, pid: Pid, status: int, status': int)
    requires Inv(s) && pid in s.table && s.table[pid] == Running(parent) && pid != SELF
    requires parent != SELF && parent in s.table && s.table[parent].Running? && parent != pid
    ensures Enabled(s, Exit(parent, status)) && Apply(s, Exit(parent, status)).table[pid] == Running(SELF)
    ensures var t := Apply(s, Exit(parent, status));
            Enabled(t, Exit(pid, status')) && IsOrphanZombie(Apply(t, Exit(pid, status')).table, pid)
    ensures Exposed(Apply(Apply(s, Exit(parent, status)), Exit(pid, status')), pid)
  {
    hide SweepOk, ChildrenOk, ChildOk;
    NotStarted(s, parent, pid);
  }

  lemma {:induction false} NotStarted(s: State, parent: Pid, pid: Pid)
    requires Inv(s) && pid in s.table && s.table[pid] == Running(parent) && parent != SELF
    ensures pid !in s.started && pid !in s.children
  {
    hide SweepOk;
  }

  /** So whatever a command forks and leaves behind: when parent and child have
      ended, in that order, the reaper collects the child. */
  lemma {:induction false} DetachedIsCollected(s: State, parent: Pid, pid: Pid, status: int, status': int)
    returns (sweep: seq<Action>)
    requires Inv(s) && pid !in s.used && parent != SELF && parent in s.table && s.table[parent].Running?
    requires !InStage(s, parent, Spawned)
    ensures var run := [Fork(parent, pid), Exit(parent, status), Exit(pid, status')] + sweep;
            Runs(s, run) && AssumedRun(s, run) && pid in After(s, run).reaped
    ensures forall k :: 0 <= k < |sweep| ==> IsSweep(sweep[k])
  {
    hide Runs, AssumedRun, After, SweepOk, ChildrenOk, ChildOk, TableOk, Ended, Exposed;
    var t := Forked(s, parent, pid);
    OrphanIsAdopted(t, parent, pid, status, status');
    var u := Apply(t, Exit(parent, status));
    NotStarted(t, parent, pid);
    var v := Apply(u, Exit(pid, status'));
    sweep := OrphanIsCollected(v, pid);
    Prepend(u, Exit(pid, status'), sweep);
    Prepend(t, Exit(parent, status), [Exit(pid, status')] + sweep);
    Prepend(s, Fork(parent, pid), [Exit(parent, status)] + ([Exit(pid, status')] + sweep));
    assert [Fork(parent, pid)] + ([Exit(parent, status)] + ([Exit(pid, status')] + sweep))
        == [Fork(parent, pid), Exit(parent, status), Exit(pid, status')] + sweep;
  }

  lemma {:induction false} Forked(s: State, parent: Pid, pid: Pid) returns (t: State)
    requires Inv(s) && pid !in s.used && parent != SELF && parent in s.table && s.table[parent].Running?
    ensures Enabled(s, Fork(parent, pid)) && t == Apply(s, Fork(parent, pid)) && Inv(t)
    ensures pid in t.table && t.table[pid] == Running(parent) && pid != SELF && pid != parent
    ensures parent in t.table && t.table[parent].Running? && t.started == s.started
  {
    t := Apply(s, Fork(parent, pid));
    StepKeeps(s, Fork(parent, pid));
    hide ChildrenOk, SweepOk;
  }

  /** A parent that lives on may collect its child itself, and then nothing is
      left for the reaper. */
  lemma {:induction false} ParentMayReap(s: State, parent: Pid, pid: Pid, status: int)
    requires Inv(s) && pid !in s.used && parent != SELF && parent in s.table && s.table[parent].Running?
    ensures var run := [Fork(parent, pid), Exit(pid, status), ParentReaps(pid)];
            && Runs(s, run) && pid !in After(s, run).table && After(s, run).reaped == s.reaped
            && parent in After(s, run).table
  {
    hide Runs, AssumedRun, After, SweepOk, ChildrenOk, TableOk, Ended;
    var t := Forked(s, parent, pid);
    EndedKeeps(t.table, pid);
    var u := Apply(t, Exit(pid, status));
    OneStep(u, ParentReaps(pid));
    Prepend(t, Exit(pid, status), [ParentReaps(pid)]);
    assert [Exit(pid, status)] + [ParentReaps(pid)] == [Exit(pid, status), ParentReaps(pid)];
    Prepend(s, Fork(parent, pid), [Exit(pid, status), ParentReaps(pid)]);
    assert [Fork(parent, pid)] + [Exit(pid, status), ParentReaps(pid)] == [Fork(parent, pid), Exit(pid, status), ParentReaps(pid)];
  }

  /** A child whose pid is stored can come to be reported: it exits, its own
      Wait collects it, and the status it exited with is what is reported. */
  lemma {:induction false} ExitIsReported(s: State, pid: Pid, status: int)
    requires Inv(s) && InStage(s, pid, Stored) && s.table[pid].Running?
    ensures var run := [Exit(pid, status), WaitReturns(pid), Record(pid), Disown(pid), Announce(pid)];
            && Runs(s, run) && AssumedRun(s, run)
            && Reported(After(s, run), pid) == Some(status)
            && pid !in After(s, run).children && pid !in After(s, run).table
  {
    hide Runs, AssumedRun, After, SweepOk, Ended;
    assert ChildOk(pid, s.started[pid], s.table, s.truth, s.children);
    EndedKeeps(s.table, pid);
    var t := Apply(s, Exit(pid, status));
    var u := Apply(t, WaitReturns(pid));
    Waited(u, pid, status);
    var rest := [Record(pid), Disown(pid), Announce(pid)];
    Prepend(t, WaitReturns(pid), rest);
    assert [WaitReturns(pid)] + rest == [WaitReturns(pid), Record(pid), Disown(pid), Announce(pid)];
    Prepend(s, Exit(pid, status), [WaitReturns(pid)] + rest);
    assert [Exit(pid, status)] + ([WaitReturns(pid)] + rest)
        == [Exit(pid, status), WaitReturns(pid), Record(pid), Disown(pid), Announce(pid)];
  }

  lemma {:induction false} Waited(s: State, pid: Pid, status: int)
    requires InStage(s, pid, Collected) && s.started[pid].waited == status
    ensures var run := [Record(pid), Disown(pid), Announce(pid)];
            && Runs(s, run) && AssumedRun(s, run) && Reported(After(s, run), pid) == Some(status)
            && After(s, run).children == s.children - {pid} && After(s, run).table == s.table
  {
    hide Runs, AssumedRun, After;
    var t := Apply(s, Record(pid));
    var u := Apply(t, Disown(pid));
    assert Runs(u, [Announce(pid)]) && AssumedRun(u, [Announce(pid)]) && After(u, [Announce(pid)]) == Apply(u, Announce(pid)) by {
      OneStep(u, Announce(pid));
    }
    Prepend(t, Disown(pid), [Announce(pid)]);
    assert [Disown(pid)] + [Announce(pid)] == [Disown(pid), Announce(pid)];
    Prepend(s, Record(pid), [Disown(pid), Announce(pid)]);
    assert [Record(pid)] + [Disown(pid), Announce(pid)] == [Record(pid), Disown(pid), Announce(pid)];
  }

  lemma {:induction false} OneStep(s: State, a: Action)
    requires Enabled(s, a) && !a.Exit?
    ensures Runs(s, [a]) && AssumedRun(s, [a]) && After(s, [a]) == Apply(s, a)
  {
    hide Enabled, Apply;
    assert [a][1..] == [];
  }

  /** And any free pid can be such a child. */
  lemma {:induction false} ChildIsStored(s: State, pid: Pid)
    requires pid !in s.used
    ensures Runs(s, [Spawn(pid), Store(pid)]) && AssumedRun(s, [Spawn(pid), Store(pid)])
    ensures var t := After(s, [Spawn(pid), Store(pid)]);
            InStage(t, pid, Stored) && pid in t.children && pid in t.table && t.table[pid] == Running(SELF)
  {
    hide Runs, AssumedRun, After;
    OneStep(Apply(s, Spawn(pid)), Store(pid));
    Prepend(s, Spawn(pid), [Store(pid)]);
    assert [Spawn(pid)] + [Store(pid)] == [Spawn(pid), Store(pid)];
  }
}
