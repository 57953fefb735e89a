/**
 * What single calls of the placement protocol do and do not do, whatever other
 * calls are made meanwhile.
 */
module PlacementCalls {
  import opened Common
  import opened Queues
  import opened Placement
  import opened PlacementCoherence

  /** The instance whose call the step belongs to. */
  function Actor(a: Action): Option<nat> {
    match a
    case Create(_, _, _) => None
    case ListAnswers(_) => None
    case ListApplies(_) => None
    case JobRuns(_, _) => None
    case JobExposed(_, _) => None
    case LateLands(_) => None
    case Restart(_, _) => None
    case _ => Some(a.i)
  }

  /** Of the instances a step of a call changes only its own. */
  lemma {:induction false} ActsAlone(s: State, a: Action)
    requires Enabled(s, a) && Actor(a).Some?
    ensures At(s, a.i) && At(Apply(s, a), a.i)
    ensures Apply(s, a).instances == s.instances[a.i := Apply(s, a).instances[a.i]]
  {
    hide HasJob, LookoutSays, Resolving, Proceeding, Submit, JobsOf, Settled;
  }

  // ---- a lookup that fails ----

  /** The state with a destroy of this instance waiting for Lookout. */
  function Waiting(s: State, i: nat): State
    requires At(s, i)
  {
    With(s, i, s.instances[i].(phase := Looking(ToDestroy)))
  }

  lemma {:induction false} WithCommutes(s: State, i: nat, j: nat, inst: Instance)
    requires At(s, i) && At(s, j) && i != j
    ensures Waiting(With(s, j, inst), i) == With(Waiting(s, i), j, inst)
  {
    assert With(s, j, inst).instances[i] == s.instances[i];
    assert s.instances[j := inst][i := Waiting(s, i).instances[i]] == Waiting(s, i).instances[j := inst];
  }

  /** A step of another call, or of the world, is the same beside it. */
  lemma {:induction false} EnabledBeside(s: State, i: nat, a: Action)
    requires At(s, i) && s.instances[i].phase.Idle? && Actor(a) != Some(i) && !a.Restart?
    ensures Enabled(Waiting(s, i), a) <==> Enabled(s, a)
  {
    if Actor(a).Some? {
      assert At(s, a.i) ==> Waiting(s, i).instances[a.i] == s.instances[a.i];
      SameEnabled(s, Waiting(s, i), a);
      hide Enabled;
    } else {
      hide HasJob, LookoutSays, InFlight;
    }
  }

  lemma {:induction false} SameEnabled(s: State, t: State, a: Action)
    requires Actor(a).Some? && |s.instances| == |t.instances| && s.server == t.server
    requires At(s, a.i) ==> s.instances[a.i] == t.instances[a.i]
    ensures Enabled(s, a) <==> Enabled(t, a)
  {
    hide HasJob, LookoutSays;
  }

  lemma {:induction false} CallBeside(s: State, i: nat, a: Action)
    requires At(s, i) && s.instances[i].phase.Idle? && Actor(a).Some? && Actor(a) != Some(i) && Enabled(s, a)
    requires Enabled(Waiting(s, i), a)
    ensures At(Apply(s, a), i) && Apply(s, a).instances[i] == s.instances[i]
    ensures Apply(Waiting(s, i), a) == Waiting(Apply(s, a), i)
  {
    var j, t := a.i, Apply(s, a);
    ActsAlone(s, a);
    ActsAlone(Waiting(s, i), a);
    assert Waiting(s, i).instances[j] == s.instances[j];
    SameCall(s, Waiting(s, i), a);
    hide Enabled, Apply;
    WithCommutes(s, i, j, t.instances[j]);
  }

  /** A call depends on no other instance than its own. */
  lemma {:induction false} SameCall(s: State, t: State, a: Action)
    requires Actor(a).Some? && Enabled(s, a) && Enabled(t, a) && At(s, a.i) && At(t, a.i)
    requires At(Apply(s, a), a.i) && At(Apply(t, a), a.i)
    requires s.instances[a.i] == t.instances[a.i] && s == t.(instances := s.instances)
    ensures Apply(s, a).instances[a.i] == Apply(t, a).instances[a.i]
    ensures Apply(s, a) == Apply(t, a).(instances := Apply(s, a).instances)
  {
    hide HasJob, LookoutSays, Known, Submit, JobsOf, Settled;
  }

  lemma {:induction false} WorldBeside(s: State, i: nat, a: Action)
    requires At(s, i) && s.instances[i].phase.Idle? && Actor(a) == None && !a.Restart? && Enabled(s, a)
    requires Enabled(Waiting(s, i), a)
    ensures At(Apply(s, a), i) && Apply(s, a).instances[i] == s.instances[i]
    ensures Apply(Waiting(s, i), a) == Waiting(Apply(s, a), i)
  {
    hide HasJob, Submit;
    if a.Create? {
      assert Apply(Waiting(s, i), a).instances == Waiting(Apply(s, a), i).instances;
    }
  }

  lemma {:induction false} RunBeside(s: State, i: nat, run: seq<Action>)
    requires At(s, i) && s.instances[i].phase.Idle? && Runs(Waiting(s, i), run)
    requires forall k :: 0 <= k < |run| ==> Actor(run[k]) != Some(i) && !run[k].Restart?
    ensures Runs(s, run) && At(After(s, run), i) && After(s, run).instances[i] == s.instances[i]
    ensures After(Waiting(s, i), run) == Waiting(After(s, run), i)
    decreases |run|
  {
    hide Enabled, Apply, Actor, Waiting;
    if run != [] {
      EnabledBeside(s, i, run[0]);
      if Actor(run[0]).Some? {
        CallBeside(s, i, run[0]);
      } else {
        WorldBeside(s, i, run[0]);
      }
      RunBeside(Apply(s, run[0]), i, run[1..]);
    }
  }

  /** When Lookout cannot say, destroy throws, and whatever other calls did
      while it waited, the world is as it would be had it never been made. */
  lemma {:induction false} FailedLookupChangesNothing(s: State, i: nat, run: seq<Action>)
    requires Enabled(s, StartDestroy(i)) && Apply(s, StartDestroy(i)).instances[i].phase.Looking?
    requires Runs(Apply(s, StartDestroy(i)), run)
    requires forall k :: 0 <= k < |run| ==> Actor(run[k]) != Some(i) && !run[k].Restart?
    ensures Runs(s, run) && Enabled(After(Apply(s, StartDestroy(i)), run), LookoutFails(i))
    ensures Apply(After(Apply(s, StartDestroy(i)), run), LookoutFails(i)) == After(s, run)
  {
    hide Runs, After, Actor;
    assert Apply(s, StartDestroy(i)) == Waiting(s, i);
    RunBeside(s, i, run);
    var t := After(s, run);
    assert Waiting(t, i).instances[i].(phase := Idle) == t.instances[i];
    assert Waiting(t, i).instances[i := t.instances[i]] == t.instances;
  }

  // ---- adopting a channel ----

  /** Within a call of ready. */
  predicate InReady(inst: Instance) {
    match inst.phase
    case CheckingKnown(_) => true
    case Looking(purpose) => !purpose.ToDestroy?
    case Answered(purpose, _) => !purpose.ToDestroy?
    case Resolved(purpose, _) => !purpose.ToDestroy?
    case Submitted(_) => true
    case AwaitingPod => true
    case AwaitingUrl => true
    case CheckingNew(_) => true
    case _ => false
  }

  /** The channel whose health is being checked. */
  function Checked(inst: Instance): Option<Channel> {
    match inst.phase
    case CheckingKnown(known) => Some(known.channel)
    case CheckingNew(candidate) => Some(candidate)
    case _ => None
  }

  /** A step that begins or ends a call of the instance. */
  predicate Bounds(a: Action, i: nat) {
    a == StartReady(i) || a == StartDestroy(i) || a == KnownHealthy(i) || a == AgentReady(i) || a == LookoutFails(i)
    || a == DestroyReturns(i) || (a.CallFails? && a.i == i)
  }

  lemma {:induction false} ReadyStep(s: State, a: Action, i: nat)
    requires Enabled(s, a) && !a.Restart? && At(s, i) && At(Apply(s, a), i)
    ensures InReady(Apply(s, a).instances[i]) ==> a == StartReady(i) || (InReady(s.instances[i]) && !Bounds(a, i))
  {
    if Actor(a) == Some(i) {
      hide HasJob, Known, Submit, JobsOf, Settled;
    } else {
      Untouched(s, a, i);
      hide *;
    }
  }

  lemma {:induction false} Untouched(s: State, a: Action, i: nat)
    requires Enabled(s, a) && !a.Restart? && At(s, i) && Actor(a) != Some(i)
    ensures At(Apply(s, a), i) && Apply(s, a).instances[i] == s.instances[i] && !Bounds(a, i)
  {
    if Actor(a).Some? {
      ActsAlone(s, a);
      hide Enabled, Apply;
    } else {
      hide HasJob, Submit;
    }
  }

  /** An instance's channel changes only when one that is checked answers. */
  lemma {:induction false} AdoptedWhenHealthy(s: State, a: Action, i: nat)
    requires Enabled(s, a) && !a.Restart? && At(s, i)
    ensures At(Apply(s, a), i)
    ensures var channel := Apply(s, a).instances[i].channel;
            channel.Some? && channel != s.instances[i].channel ==>
              (a == KnownHealthy(i) || a == AgentReady(i)) && Checked(s.instances[i]) == channel && InReady(s.instances[i])
  {
    if Actor(a) == Some(i) {
      hide HasJob, Known, Submit, JobsOf, Settled;
    } else {
      Untouched(s, a, i);
      hide *;
    }
  }

  /** The last call of ready began with step m of the run and still goes on. */
  predicate OpenSince(run: seq<Action>, i: nat, m: nat) {
    m < |run| && run[m] == StartReady(i) && forall k :: m < k < |run| ==> !Bounds(run[k], i)
  }

  lemma {:induction false} ReadyBegan(s: State, run: seq<Action>, i: nat) returns (m: nat)
    requires Runs(s, run) && At(s, i) && !InReady(s.instances[i]) && forall k :: 0 <= k < |run| ==> !run[k].Restart?
    requires At(After(s, run), i) && InReady(After(s, run).instances[i])
    ensures OpenSince(run, i, m)
    decreases |run|
  {
    hide Enabled, Apply, InReady, Bounds;
    NoSteps(s);
    var before, a := run[..|run| - 1], run[|run| - 1];
    SplitLast(s, run);
    StaysAt(s, before, i);
    ReadyStep(After(s, before), a, i);
    if a == StartReady(i) {
      m := |run| - 1;
    } else {
      m := ReadyBegan(s, before, i);
    }
  }

  lemma {:induction false} SplitLast(s: State, run: seq<Action>)
    requires Runs(s, run) && run != []
    ensures Runs(s, run[..|run| - 1]) && Enabled(After(s, run[..|run| - 1]), run[|run| - 1])
    ensures After(s, run) == Apply(After(s, run[..|run| - 1]), run[|run| - 1])
    decreases |run|
  {
    hide Enabled, Apply;
    if |run| > 1 {
      SplitLast(Apply(s, run[0]), run[1..]);
      assert run[1..][..|run| - 2] == run[..|run| - 1][1..];
    }
  }

  lemma {:induction false} StaysAt(s: State, run: seq<Action>, i: nat)
    requires Runs(s, run) && At(s, i) && forall k :: 0 <= k < |run| ==> !run[k].Restart?
    ensures At(After(s, run), i)
    decreases |run|
  {
    if run != [] {
      AdoptedWhenHealthy(s, run[0], i);
      hide Enabled, Apply;
      StaysAt(Apply(s, run[0]), run[1..], i);
    }
  }

  /** A channel an instance has come to hold in a run answered its health check
      in the very call of ready that adopted it: the call began with step m, the
      check was answered in step n, and no call began or ended in between. */
  lemma {:induction false} AdoptedInItsCall(s: State, run: seq<Action>, i: nat, channel: Channel)
    returns (m: nat, n: nat)
    requires Runs(s, run) && At(s, i) && !InReady(s.instances[i]) && forall k :: 0 <= k < |run| ==> !run[k].Restart?
    requires s.instances[i].channel != Some(channel)
    requires At(After(s, run), i) && After(s, run).instances[i].channel == Some(channel)
    ensures m < n < |run| && OpenSince(run[..n], i, m) && (run[n] == KnownHealthy(i) || run[n] == AgentReady(i))
    ensures Runs(s, run[..n]) && At(After(s, run[..n]), i) && Checked(After(s, run[..n]).instances[i]) == Some(channel)
    decreases |run|
  {
    hide Enabled, Apply, InReady, Bounds, Checked;
    NoSteps(s);
    var last := |run| - 1;
    var before := run[..last];
    SplitLast(s, run);
    StaysAt(s, before, i);
    AdoptedWhenHealthy(After(s, before), run[last], i);
    if After(s, before).instances[i].channel == Some(channel) {
      m, n := AdoptedInItsCall(s, before, i, channel);
      assert before[..n] == run[..n];
    } else {
      m := ReadyBegan(s, before, i);
      n := last;
    }
  }

  // ---- attaching never submits ----

  /** An attached instance that asks for its queue does not ask to submit. */
  predicate AttachedInstance(inst: Instance) {
    inst.attachOnly
    && (inst.phase.Looking? || inst.phase.Answered? || inst.phase.Resolved? ==> !inst.phase.purpose.ToSubmit?)
  }

  predicate AttachedOnly(s: State) {
    s.late == {} && forall i :: 0 <= i < |s.instances| ==> AttachedInstance(s.instances[i])
  }

  lemma {:induction false} AttachedResolving(s: State, inst: Instance, purpose: Purpose)
    requires inst.attachOnly && !purpose.ToSubmit?
    ensures AttachedInstance(Resolving(s, inst, purpose))
  {
    hide Known;
  }

  lemma {:induction false} AttachedCall(s: State, a: Action)
    requires AttachedOnly(s) && Enabled(s, a)
    requires a.StartReady? || a.KnownGone? || a.StartDestroy?
    ensures AttachedOnly(Apply(s, a)) && Apply(s, a).server == s.server
  {
    hide Resolving;
    AttachedResolving(s, s.instances[a.i], ToAttach);
    AttachedResolving(s, s.instances[a.i], ToDestroy);
  }

  lemma {:induction false} AttachedWorld(s: State, a: Action)
    requires AttachedOnly(s) && Enabled(s, a) && (a.Create? ==> a.attachOnly)
    requires a.Restart? || a.Create? || a.LateLands? || a.JobRuns? || a.JobExposed? || a.ListAnswers? || a.ListApplies?
    ensures AttachedOnly(Apply(s, a)) && Apply(s, a).server.jobs == s.server.jobs
  {
    hide Submit;
    if a.Restart? {
      forall at ensures !InFlight(s, at) {
        NothingInFlight(s, at);
      }
      assert a.sent == {};
    }
  }

  lemma {:induction false} NothingInFlight(s: State, at: Address)
    requires AttachedOnly(s)
    ensures !InFlight(s, at)
  {
    forall i | 0 <= i < |s.instances| ensures s.instances[i].phase != Resolved(ToSubmit, at.0) {
      assert AttachedInstance(s.instances[i]);
    }
  }

  lemma {:induction false} AttachedStep(s: State, a: Action)
    requires AttachedOnly(s) && Enabled(s, a) && (a.Create? ==> a.attachOnly)
    ensures AttachedOnly(Apply(s, a)) && Apply(s, a).server.jobs == s.server.jobs
  {
    if a.StartReady? || a.KnownGone? || a.StartDestroy? {
      hide *;
      AttachedCall(s, a);
    } else if a.Restart? || a.Create? || a.LateLands? || a.JobRuns? || a.JobExposed? || a.ListAnswers? || a.ListApplies? {
      hide *;
      AttachedWorld(s, a);
    } else {
      ActsAlone(s, a);
      AttachedOwn(s, a);
      hide Enabled, Apply, AttachedInstance;
    }
  }

  lemma {:induction false} AttachedOwn(s: State, a: Action)
    requires Enabled(s, a) && Actor(a).Some? && At(s, a.i) && At(Apply(s, a), a.i) && AttachedInstance(s.instances[a.i])
    requires !a.StartReady? && !a.KnownGone? && !a.StartDestroy?
    ensures AttachedInstance(Apply(s, a).instances[a.i])
    ensures Apply(s, a).server.jobs == s.server.jobs && Apply(s, a).late == s.late
  {
    hide Submit, HasJob, LookoutSays, Settled, JobsOf;
  }

  /** A process of attached instances never adds a job, whatever it does. */
  lemma {:induction false} AttachedRun(s: State, run: seq<Action>)
    requires AttachedOnly(s) && Runs(s, run)
    requires forall k :: 0 <= k < |run| ==> run[k].Create? ==> run[k].attachOnly
    ensures After(s, run).server.jobs == s.server.jobs
    decreases |run|
  {
    hide Enabled, Apply, AttachedOnly;
    if run != [] {
      AttachedStep(s, run[0]);
      AttachedRun(Apply(s, run[0]), run[1..]);
    }
  }

  /** An attached instance is at no point about to submit. */
  lemma {:induction false} AttachedAsks(s: State, i: nat)
    requires Coherent(s) && At(s, i) && s.instances[i].attachOnly
    ensures !Enabled(s, SubmitLands(i)) && !Enabled(s, SubmitReturns(i)) && !Enabled(s, CallFails(i, true))
    ensures !(s.instances[i].phase.Resolved? && s.instances[i].phase.purpose == ToSubmit)
  {
    hide Coherent, HoldsOk, CachedOk, ChannelOk;
    InstanceAt(s, i);
  }

  /** Among whatever other instances, one that is attached never adds a job, nor
      leaves a submit on its way: in every run, no step of a call of its adds to
      either, and no restart takes one over from it. */
  lemma {:induction false} AttachedNeverAdds(config: Config, run: seq<Action>, i: nat, a: Action)
    requires Runs(Initial(config), run) && At(After(Initial(config), run), i)
    requires After(Initial(config), run).instances[i].attachOnly && Enabled(After(Initial(config), run), a)
    ensures var s := After(Initial(config), run);
            && (Actor(a) == Some(i) ==> Apply(s, a).server.jobs == s.server.jobs && Apply(s, a).late == s.late)
            && !(s.instances[i].phase.Resolved? && s.instances[i].phase.purpose == ToSubmit)
            && a != SubmitLands(i) && a != SubmitReturns(i) && a != CallFails(i, true)
  {
    hide Runs, After, Initial, Coherent, HasJob;
    InitialCoheres(config);
    RunCoheres(Initial(config), run);
    AttachedAsks(After(Initial(config), run), i);
    if Actor(a) == Some(i) {
      OnlySubmitsAdd(After(Initial(config), run), a);
    }
  }

  /** Only two steps of a call add a job or leave a submit on its way. */
  lemma {:induction false} OnlySubmitsAdd(s: State, a: Action)
    requires Enabled(s, a) && Actor(a).Some? && !a.SubmitLands? && !(a.CallFails? && a.stillSent)
    ensures Apply(s, a).server.jobs == s.server.jobs && Apply(s, a).late == s.late
  {
    hide HasJob, LookoutSays, Resolving, Proceeding, Submit, Settled, JobsOf;
  }
}
