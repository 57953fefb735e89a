/**
 * What every run of the placement protocol keeps, whatever the queues: caches,
 * instances, jobs, pods and channels belong together. It takes only that calls
 * on one instance do not overlap.
 */
module PlacementCoherence {
  import opened Common
  import opened Queues
  import opened Placement

  // ---- the invariant ----

  predicate ServerOk(sv: Server) {
    && (forall at :: at in sv.jobs ==> sv.jobs[at] < sv.next)
    && (forall at, at' :: at in sv.jobs && at' in sv.jobs && sv.jobs[at] == sv.jobs[at'] ==> at == at')
  }

  predicate ListKnown(found: map<Id, Queue>, sv: Server) {
    forall id :: id in found ==> (found[id], id) in sv.jobs.Keys
  }

  predicate JobOk(job: SubmittedJob, id: Id, sv: Server) {
    job.jobSet == id && (job.queue, id) in sv.jobs && sv.jobs[(job.queue, id)] == job.jobId
  }

  predicate PodOk(pod: Pod, job: SubmittedJob, sv: Server) {
    job.jobId in sv.running && sv.running[job.jobId] == pod
  }

  /** The channel reaches the job's own agent, under the sandbox's token. */
  predicate ChannelOk(channel: Channel, pod: Pod, job: SubmittedJob, id: Id, sv: Server) {
    job.jobId in sv.exposed && channel == Channel(sv.exposed[job.jobId], TokenOf(id), pod)
  }

  predicate CachedOk(c: Cached, id: Id, sv: Server) {
    JobOk(c.job, id, sv) && PodOk(c.pod, c.job, sv) && ChannelOk(c.channel, c.pod, c.job, id, sv)
  }

  /** An instance that holds a job never asks again, and an attached one never
      asks in order to submit. */
  predicate Asking(inst: Instance, purpose: Purpose) {
    inst.job == None && (purpose.ToDestroy? || purpose == Purposed(inst))
  }

  predicate PhaseOk(inst: Instance, sv: Server) {
    match inst.phase
    case Idle => true
    case CheckingKnown(known) => CachedOk(known, inst.id, sv)
    case Looking(purpose) => Asking(inst, purpose)
    case Answered(purpose, found) => Asking(inst, purpose) && (found.Some? ==> (found.value, inst.id) in sv.jobs)
    case Resolved(purpose, _) => Asking(inst, purpose)
    case Submitted(job) => inst.job == None && !inst.attachOnly && JobOk(job, inst.id, sv)
    case AwaitingPod => inst.job.Some?
    case AwaitingUrl => inst.job.Some? && inst.pod.Some?
    case CheckingNew(channel) => inst.job.Some? && inst.pod.Some?
                                 && ChannelOk(channel, inst.pod.value, inst.job.value, inst.id, sv)
    case Cancelling => inst.job.Some?
    case CancelAnswered(_, seen) => seen <= sv.jobs.Keys
  }

  /** Placement coherence of one instance. */
  predicate HoldsOk(inst: Instance, sv: Server) {
    && (inst.job.Some? ==> JobOk(inst.job.value, inst.id, sv))
    && (inst.pod.Some? ==> inst.job.Some? && PodOk(inst.pod.value, inst.job.value, sv))
    && (inst.channel.Some? ==>
          inst.pod.Some? && inst.job.Some?
          && ChannelOk(inst.channel.value, inst.pod.value, inst.job.value, inst.id, sv))
  }

  predicate InstanceOk(inst: Instance, sv: Server) {
    HoldsOk(inst, sv) && PhaseOk(inst, sv)
  }

  predicate InstancesOk(instances: seq<Instance>, sv: Server) {
    forall i :: 0 <= i < |instances| ==> InstanceOk(instances[i], sv)
  }

  predicate PlacementsOk(placements: map<Id, Cached>, sv: Server) {
    forall id :: id in placements ==> CachedOk(placements[id], id, sv)
  }

  predicate ListsOk(lists: set<map<Id, Queue>>, sv: Server) {
    forall found :: found in lists ==> ListKnown(found, sv)
  }

  predicate PartsOk(sv: Server, instances: seq<Instance>, placements: map<Id, Cached>, lists: set<map<Id, Queue>>) {
    ServerOk(sv) && InstancesOk(instances, sv) && PlacementsOk(placements, sv) && ListsOk(lists, sv)
  }

  predicate Coherent(s: State) {
    PartsOk(s.server, s.instances, s.placements, s.lists)
  }

  // ---- what a growing server keeps ----

  /** b has everything a had. */
  predicate Grows(a: Server, b: Server) {
    && (forall at :: at in a.jobs ==> at in b.jobs && b.jobs[at] == a.jobs[at])
    && (forall job :: job in a.running ==> job in b.running && b.running[job] == a.running[job])
    && (forall job :: job in a.exposed ==> job in b.exposed && b.exposed[job] == a.exposed[job])
    && a.cancelled <= b.cancelled
  }

  lemma {:induction false} GrowsCached(a: Server, b: Server, c: Cached, id: Id)
    requires Grows(a, b) && CachedOk(c, id, a)
    ensures CachedOk(c, id, b)
  {
  }

  lemma {:induction false} GrowsInstance(a: Server, b: Server, inst: Instance)
    requires Grows(a, b) && InstanceOk(inst, a)
    ensures InstanceOk(inst, b)
  {
    hide Purposed;
  }

  lemma {:induction false} ServerCoheres(s: State, sv: Server)
    requires Coherent(s) && Grows(s.server, sv) && ServerOk(sv)
    ensures PartsOk(sv, s.instances, s.placements, s.lists)
  {
    hide InstanceOk, CachedOk, ServerOk;
    forall i | 0 <= i < |s.instances| ensures InstanceOk(s.instances[i], sv) {
      GrowsInstance(s.server, sv, s.instances[i]);
    }
    forall id | id in s.placements ensures CachedOk(s.placements[id], id, sv) {
      GrowsCached(s.server, sv, s.placements[id], id);
    }
  }

  lemma {:induction false} SubmitGrows(sv: Server, at: Address)
    requires ServerOk(sv)
    ensures ServerOk(Submit(sv, at)) && Grows(sv, Submit(sv, at))
    ensures at in Submit(sv, at).jobs && Submit(sv, at).jobs.Keys == sv.jobs.Keys + {at}
  {
    hide ServerOk;
    if at !in sv.jobs {
      FreshIdOk(sv, at);
      assert forall job :: job in sv.jobs ==> job in sv.jobs[at := sv.next];
    }
  }

  lemma {:induction false} FreshIdOk(sv: Server, at: Address)
    requires ServerOk(sv) && at !in sv.jobs
    ensures ServerOk(sv.(jobs := sv.jobs[at := sv.next], next := sv.next + 1))
  {
  }

  // ---- every step keeps it ----

  lemma {:induction false} WithCoheres(s: State, i: nat, inst: Instance)
    requires Coherent(s) && At(s, i) && InstanceOk(inst, s.server)
    ensures Coherent(With(s, i, inst))
  {
    hide InstanceOk, ServerOk, ListsOk, PlacementsOk;
  }

  lemma {:induction false} InstanceAt(s: State, i: nat)
    requires Coherent(s) && At(s, i)
    ensures InstanceOk(s.instances[i], s.server)
  {
    hide InstanceOk, ServerOk, ListsOk, PlacementsOk;
  }

  /** A new phase alone, when that phase is in order. */
  lemma {:induction false} PhaseCoheres(s: State, i: nat, phase: Phase)
    requires Coherent(s) && At(s, i) && PhaseOk(s.instances[i].(phase := phase), s.server)
    ensures Coherent(With(s, i, s.instances[i].(phase := phase)))
  {
    hide Coherent, PhaseOk;
    InstanceAt(s, i);
    WithCoheres(s, i, s.instances[i].(phase := phase));
  }

  lemma {:induction false} CacheCoheres(s: State, id: Id, c: Cached)
    requires Coherent(s) && CachedOk(c, id, s.server)
    ensures Coherent(s.(placements := s.placements[id := c]))
  {
    hide InstancesOk, ServerOk, ListsOk, CachedOk;
  }

  lemma {:induction false} UncachedCoheres(s: State, id: Id)
    requires Coherent(s)
    ensures Coherent(s.(placements := s.placements - {id}))
  {
    hide InstancesOk, ServerOk, ListsOk, CachedOk;
  }

  lemma {:induction false} ResolvingCoheres(s: State, i: nat, purpose: Purpose)
    requires Coherent(s) && At(s, i) && Asking(s.instances[i], purpose)
    ensures Coherent(With(s, i, Resolving(s, s.instances[i], purpose)))
  {
    hide Coherent, Known, CachedOk;
    PhaseCoheres(s, i, Resolving(s, s.instances[i], purpose).phase);
  }

  lemma {:induction false} ProceedingCoheres(s: State, i: nat)
    requires Coherent(s) && At(s, i)
    ensures Coherent(With(s, i, Proceeding(s, s.instances[i])))
  {
    hide Coherent, Resolving;
    if s.instances[i].job.Some? {
      PhaseCoheres(s, i, AwaitingPod);
    } else {
      ResolvingCoheres(s, i, Purposed(s.instances[i]));
    }
  }

  lemma {:induction false} CacheAt(s: State, id: Id)
    requires Coherent(s) && id in s.placements
    ensures CachedOk(s.placements[id], id, s.server)
  {
    hide InstancesOk, ServerOk, ListsOk, CachedOk;
  }

  lemma {:induction false} CallCoheres(s: State, a: Action)
    requires a.StartReady? || a.KnownGone? || a.StartDestroy? || a.LookoutAnswers? || a.LookoutFails? || a.Settles?
    requires Coherent(s) && Enabled(s, a)
    ensures Coherent(Apply(s, a))
  {
    hide Coherent, Proceeding, Resolving, CachedOk, HoldsOk, Settled, HasJob;
    var inst := s.instances[a.i];
    InstanceAt(s, a.i);
    match a
    case StartReady(i) =>
      if inst.channel.None? {
        if inst.id in s.placements {
          CacheAt(s, inst.id);
          PhaseCoheres(s, i, CheckingKnown(s.placements[inst.id]));
        } else {
          ProceedingCoheres(s, i);
        }
      }
    case KnownGone(i) =>
      ProceedingCoheres(s, i);
      UncachedCoheres(With(s, i, Proceeding(s, inst)), inst.id);
    case StartDestroy(i) =>
      if inst.job.Some? {
        PhaseCoheres(s, i, Cancelling);
      } else {
        ResolvingCoheres(s, i, ToDestroy);
      }
    case LookoutAnswers(i, answer) => PhaseCoheres(s, i, Answered(inst.phase.purpose, answer));
    case LookoutFails(i) => PhaseCoheres(s, i, Idle);
    case Settles(i) =>
      PhaseCoheres(s, i, Resolved(inst.phase.purpose, Settled(s.config, inst.owner, inst.phase.found)));
      SamePartsCohere(With(s, i, inst.(phase := Resolved(inst.phase.purpose,
                                                        Settled(s.config, inst.owner, inst.phase.found)))), Apply(s, a));
  }

  /** Neither memory, nor owner map, nor late submits have a part in it. */
  lemma {:induction false} SamePartsCohere(s: State, t: State)
    requires Coherent(s)
    requires t.server == s.server && t.instances == s.instances && t.placements == s.placements && t.lists == s.lists
    ensures Coherent(t)
  {
    hide PartsOk;
  }

  lemma {:induction false} JobCoheres(s: State, a: Action)
    requires a.SubmitLands? || a.SubmitReturns? || a.JobFound?
    requires Coherent(s) && Enabled(s, a)
    ensures Coherent(Apply(s, a))
  {
    hide Coherent, HasJob, CachedOk, ChannelOk, PodOk;
    var inst := s.instances[a.i];
    InstanceAt(s, a.i);
    match a
    case SubmitLands(i) =>
      hide Submit;
      var at := (inst.phase.queue, inst.id);
      LandingCoheres(s, at);
      var t := s.(server := Submit(s.server, at));
      PhaseCoheres(t, i, Submitted(SubmittedJob(t.server.jobs[at], inst.id, inst.phase.queue)));
    case SubmitReturns(i) =>
      WithCoheres(s, i, inst.(job := Some(inst.phase.job), phase := AwaitingPod));
    case JobFound(i) =>
      var job := SubmittedJob(s.server.jobs[(inst.phase.queue, inst.id)], inst.id, inst.phase.queue);
      WithCoheres(s, i, inst.(job := Some(job), phase := AwaitingPod));
  }

  lemma {:induction false} LandingCoheres(s: State, at: Address)
    requires Coherent(s)
    ensures Coherent(s.(server := Submit(s.server, at))) && at in Submit(s.server, at).jobs
  {
    hide InstancesOk, ListsOk, PlacementsOk, Grows, ServerOk, Submit;
    SubmitGrows(s.server, at);
    ServerCoheres(s, Submit(s.server, at));
  }

  lemma {:induction false} ReachCoheres(s: State, a: Action)
    requires a.KnownHealthy? || a.PodSeen? || a.UrlSeen? || a.AgentReady?
    requires Coherent(s) && Enabled(s, a)
    ensures Coherent(Apply(s, a))
  {
    hide Coherent, HasJob, JobOk;
    InstanceAt(s, a.i);
    var inst := s.instances[a.i];
    match a
    case KnownHealthy(i) =>
      var known := inst.phase.known;
      WithCoheres(s, i,
                  inst.(job := Some(known.job), pod := Some(known.pod), channel := Some(known.channel), phase := Idle));
    case PodSeen(i) =>
      WithCoheres(s, i, inst.(pod := Some(s.server.running[inst.job.value.jobId]), phase := AwaitingUrl));
    case UrlSeen(i) =>
      PhaseCoheres(s, i,
                   CheckingNew(Channel(s.server.exposed[inst.job.value.jobId], TokenOf(inst.id), inst.pod.value)));
    case AgentReady(i) =>
      var inst' := inst.(channel := Some(inst.phase.candidate), phase := Idle);
      WithCoheres(s, i, inst');
      CacheCoheres(With(s, i, inst'), inst.id, Cached(inst.job.value, inst.pod.value, inst.phase.candidate));
  }

  lemma {:induction false} CancelCoheres(s: State, a: Action)
    requires a.CancelLands? || a.DestroyReturns? || a.CallFails?
    requires Coherent(s) && Enabled(s, a)
    ensures Coherent(Apply(s, a))
  {
    hide Coherent, HasJob, ChannelOk, PodOk, CachedOk, JobOk;
    InstanceAt(s, a.i);
    var inst, t := s.instances[a.i], Apply(s, a);
    match a
    case CancelLands(i) =>
      hide JobsOf;
      CancelledCoheres(s, t.server.cancelled);
      var u := s.(server := t.server);
      PhaseCoheres(u, i, t.instances[i].phase) by { JobsOfSubset(s.server, inst.id); }
      assert t == With(u, i, u.instances[i].(phase := t.instances[i].phase));
    case DestroyReturns(i) =>
      var inst' := inst.(pod := None, channel := None, phase := Idle);
      WithCoheres(s, i, inst');
      UncachedCoheres(With(s, i, inst'), inst.id);
      SamePartsCohere(With(s, i, inst').(placements := s.placements - {inst.id}), t);
    case CallFails(i, _) =>
      PhaseCoheres(s, i, Idle);
      SamePartsCohere(With(s, i, inst.(phase := Idle)), t);
  }

  lemma {:induction false} JobsOfSubset(sv: Server, id: Id)
    ensures JobsOf(sv, id) <= sv.jobs.Keys
  {
  }

  lemma {:induction false} CancelledCoheres(s: State, cancelled: set<JobId>)
    requires Coherent(s) && s.server.cancelled <= cancelled
    ensures Coherent(s.(server := s.server.(cancelled := cancelled)))
  {
    hide InstancesOk, ListsOk, PlacementsOk;
    ServerCoheres(s, s.server.(cancelled := cancelled));
  }

  lemma {:induction false} WorldCoheres(s: State, a: Action)
    requires a.JobRuns? || a.JobExposed? || a.LateLands? || a.Create? || a.ListAnswers? || a.ListApplies? || a.Restart?
    requires Coherent(s) && Enabled(s, a)
    ensures Coherent(Apply(s, a))
  {
    hide InstancesOk, ListsOk, PlacementsOk, ServerOk;
    match a
    case JobRuns(job, pod) => RunningCoheres(s, a);
    case JobExposed(job, url) => RunningCoheres(s, a);
    case LateLands(at) => LandingCoheres(s, at);
    case Create(id, owner, attachOnly) =>
      NewInstanceCoheres(s, Instance(id, owner, attachOnly, None, None, None, Idle));
    case ListAnswers(found) => ListsCohere(s, found);
    case ListApplies(found) => ListsCohere(s, found);
    case Restart(_, _) => NothingCoheres(s.server);
  }

  lemma {:induction false} RunningCoheres(s: State, a: Action)
    requires (a.JobRuns? || a.JobExposed?) && Coherent(s) && Enabled(s, a)
    ensures Coherent(Apply(s, a))
  {
    hide InstancesOk, ListsOk, PlacementsOk;
    ServerCoheres(s, Apply(s, a).server);
  }

  lemma {:induction false} ListsCohere(s: State, found: map<Id, Queue>)
    requires Coherent(s)
    ensures (forall id :: id in found ==> (found[id], id) in s.server.jobs) ==>
              ListsOk(s.lists + {found}, s.server)
    ensures ListsOk(s.lists - {found}, s.server)
  {
    hide InstancesOk, PlacementsOk, ServerOk;
  }

  lemma {:induction false} NothingCoheres(sv: Server)
    ensures InstancesOk([], sv) && PlacementsOk(map[], sv) && ListsOk({}, sv)
  {
  }

  lemma {:induction false} NewInstanceCoheres(s: State, inst: Instance)
    requires Coherent(s) && InstanceOk(inst, s.server)
    ensures InstancesOk(s.instances + [inst], s.server)
  {
    hide InstanceOk, ServerOk, ListsOk, PlacementsOk;
  }

  lemma {:induction false} StepCoheres(s: State, a: Action)
    requires Coherent(s) && Enabled(s, a)
    ensures Coherent(Apply(s, a))
  {
    hide *;
    match a
    case StartReady(_) => CallCoheres(s, a);
    case KnownGone(_) => CallCoheres(s, a);
    case StartDestroy(_) => CallCoheres(s, a);
    case LookoutAnswers(_, _) => CallCoheres(s, a);
    case LookoutFails(_) => CallCoheres(s, a);
    case Settles(_) => CallCoheres(s, a);
    case SubmitLands(_) => JobCoheres(s, a);
    case SubmitReturns(_) => JobCoheres(s, a);
    case JobFound(_) => JobCoheres(s, a);
    case KnownHealthy(_) => ReachCoheres(s, a);
    case PodSeen(_) => ReachCoheres(s, a);
    case UrlSeen(_) => ReachCoheres(s, a);
    case AgentReady(_) => ReachCoheres(s, a);
    case CancelLands(_) => CancelCoheres(s, a);
    case DestroyReturns(_) => CancelCoheres(s, a);
    case CallFails(_, _) => CancelCoheres(s, a);
    case _ => WorldCoheres(s, a);
  }

  lemma {:induction false} RunCoheres(s: State, run: seq<Action>)
    requires Coherent(s) && Runs(s, run)
    ensures Coherent(After(s, run))
    decreases |run|
  {
    hide Coherent, Enabled, Apply;
    if run != [] {
      StepCoheres(s, run[0]);
      RunCoheres(Apply(s, run[0]), run[1..]);
    }
  }

  lemma {:induction false} InitialCoheres(config: Config)
    ensures Coherent(Initial(config))
  {
  }

  // ---- what holds in every run ----

  /** What is cached and what an instance holds is a job of that sandbox, that
      job's pod, and a channel to that job's agent under that sandbox's token. */
  lemma {:induction false} PlacementsCohere(config: Config, run: seq<Action>)
    requires Runs(Initial(config), run)
    ensures var s := After(Initial(config), run);
            PlacementsOk(s.placements, s.server)
            && forall i :: 0 <= i < |s.instances| ==> HoldsOk(s.instances[i], s.server)
  {
    hide Runs, After, Initial, PlacementsOk, HoldsOk, PhaseOk, ServerOk, ListsOk;
    InitialCoheres(config);
    RunCoheres(Initial(config), run);
  }

  /** Only three steps give an instance a job. */
  lemma {:induction false} JobUntouched(s: State, a: Action, i: nat)
    requires Enabled(s, a) && !a.Restart? && At(s, i)
    requires a != KnownHealthy(i) && a != SubmitReturns(i) && a != JobFound(i)
    ensures At(Apply(s, a), i) && Apply(s, a).instances[i].job == s.instances[i].job
  {
    if a.StartDestroy? || a.StartReady? || a.KnownGone? {
      hide Resolving;
      ResolvingHolds(s, s.instances[a.i], ToDestroy);
      ResolvingHolds(s, s.instances[a.i], Purposed(s.instances[a.i]));
    } else {
      hide Resolving, HasJob, Submit, Settled, JobsOf, Known, Proceeding;
    }
  }

  lemma {:induction false} ResolvingHolds(s: State, inst: Instance, purpose: Purpose)
    ensures Resolving(s, inst, purpose).job == inst.job
  {
  }

  /** An instance that holds a job has nothing to submit, nor to look for. */
  lemma {:induction false} HolderAsksNothing(s: State, i: nat)
    requires Coherent(s) && At(s, i) && s.instances[i].job.Some?
    ensures !Enabled(s, SubmitLands(i)) && !Enabled(s, SubmitReturns(i)) && !Enabled(s, JobFound(i))
  {
    hide Coherent, HasJob, HoldsOk, CachedOk, ChannelOk;
    InstanceAt(s, i);
  }

  lemma {:induction false} HolderStep(s: State, a: Action, i: nat)
    requires Coherent(s) && Enabled(s, a) && !a.Restart? && At(s, i) && s.instances[i].job.Some?
    ensures At(Apply(s, a), i) && Apply(s, a).instances[i].job.Some? && a != SubmitLands(i)
  {
    HolderAsksNothing(s, i);
    if a != KnownHealthy(i) {
      hide *;
      JobUntouched(s, a, i);
    }
  }

  /** An instance that holds a job submits none as long as its process lives,
      destroyed or not, and goes on holding one. */
  lemma {:induction false} HolderNeverSubmits(s: State, run: seq<Action>, i: nat)
    requires Coherent(s) && Runs(s, run) && At(s, i) && s.instances[i].job.Some?
    requires forall k :: 0 <= k < |run| ==> !run[k].Restart?
    ensures forall k :: 0 <= k < |run| ==> run[k] != SubmitLands(i)
    ensures At(After(s, run), i) && After(s, run).instances[i].job.Some?
    decreases |run|
  {
    hide Coherent, Enabled, Apply;
    if run != [] {
      HolderStep(s, run[0], i);
      StepCoheres(s, run[0]);
      HolderNeverSubmits(Apply(s, run[0]), run[1..], i);
    }
  }

  /** So it is of every run from the start. */
  lemma {:induction false} HolderNeverSubmitsAgain(config: Config, before: seq<Action>, run: seq<Action>, i: nat)
    requires Runs(Initial(config), before) && Runs(After(Initial(config), before), run)
    requires At(After(Initial(config), before), i) && After(Initial(config), before).instances[i].job.Some?
    requires forall k :: 0 <= k < |run| ==> !run[k].Restart?
    ensures forall k :: 0 <= k < |run| ==> run[k] != SubmitLands(i)
  {
    hide *;
    InitialCoheres(config);
    RunCoheres(Initial(config), before);
    HolderNeverSubmits(After(Initial(config), before), run, i);
  }
}
