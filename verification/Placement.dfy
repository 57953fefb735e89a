/**
 * The sandbox placement protocol: any number of short-lived ArmadaSandbox
 * instances in one adapter process at a time, sharing a queue directory and a
 * placement cache, against an Armada that dedupes by (queue, clientId) and a
 * Lookout that may not answer. A step is what runs between two awaits; calls
 * on different instances interleave freely, calls on one do not overlap.
 */
module Placement {
  import opened Common
  import opened Queues

  type JobId = nat
  type Pod = string
  type Url = string

  /** The token of an agent depends on the sandbox id alone. */
  datatype Token = TokenOf(id: Id)

  datatype Channel = Channel(url: Url, token: Token, pod: Pod)

  datatype SubmittedJob = SubmittedJob(jobId: JobId, jobSet: Id, queue: Queue)

  datatype Cached = Cached(job: SubmittedJob, pod: Pod, channel: Channel)

  /** A job is addressed by its queue and the sandbox id that is its set. */
  type Address = (Queue, Id)

  /** Armada. The pod and url of a job are those of the first event that names
      them, which its replayed stream gives to every later watcher. */
  datatype Server = Server(
    jobs: map<Address, JobId>,
    next: JobId,
    cancelled: set<JobId>,
    running: map<JobId, Pod>,
    exposed: map<JobId, Url>)

  /** Why a call asked for its queue. */
  datatype Purpose = ToSubmit | ToAttach | ToDestroy

  datatype Phase =
    | Idle
    | CheckingKnown(known: Cached)
    | Looking(purpose: Purpose)
    | Answered(purpose: Purpose, found: Option<Queue>)
    | Resolved(purpose: Purpose, queue: Queue)
    | Submitted(job: SubmittedJob)
    | AwaitingPod
    | AwaitingUrl
    | CheckingNew(candidate: Channel)
    | Cancelling
    | CancelAnswered(at: Queue, seen: set<Address>)

  datatype Instance = Instance(
    id: Id,
    owner: Option<Owner>,
    attachOnly: bool,
    job: Option<SubmittedJob>,
    pod: Option<Pod>,
    channel: Option<Channel>,
    phase: Phase)

  /** `lists` are answers to listActive on their way back; `late` are submits
      whose caller has given up on them and that may still arrive. */
  datatype State = State(
    config: Config,
    instances: seq<Instance>,
    remembered: map<Id, Queue>,
    placements: map<Id, Cached>,
    lists: set<map<Id, Queue>>,
    late: set<Address>,
    server: Server)

  datatype Action =
    | Create(id: Id, owner: Option<Owner>, attachOnly: bool)
    | StartReady(i: nat)
    | KnownHealthy(i: nat)
    | KnownGone(i: nat)
    | StartDestroy(i: nat)
    | LookoutAnswers(i: nat, answer: Option<Queue>)
    | LookoutFails(i: nat)
    | Settles(i: nat)
    | SubmitLands(i: nat)
    | SubmitReturns(i: nat)
    | JobFound(i: nat)
    | PodSeen(i: nat)
    | UrlSeen(i: nat)
    | AgentReady(i: nat)
    | CancelLands(i: nat)
    | DestroyReturns(i: nat)
    | CallFails(i: nat, stillSent: bool)
    | ListAnswers(found: map<Id, Queue>)
    | ListApplies(found: map<Id, Queue>)
    | JobRuns(job: JobId, pod: Pod)
    | JobExposed(job: JobId, url: Url)
    | LateLands(at: Address)
    | Restart(config: Config, sent: set<Address>)

  function Initial(config: Config): State {
    State(config, [], map[], map[], {}, {}, Server(map[], 0, {}, map[], map[]))
  }

  // ---- the server ----

  /** Submit, deduped by queue and client id. */
  function Submit(sv: Server, at: Address): Server {
    if at in sv.jobs then sv else sv.(jobs := sv.jobs[at := sv.next], next := sv.next + 1)
  }

  predicate HasJob(sv: Server, id: Id) {
    exists at :: at in sv.jobs && at.1 == id
  }

  /** Lookout is up to date: it names a queue that holds the set, and none only
      when no queue does. */
  predicate LookoutSays(sv: Server, id: Id, found: Option<Queue>) {
    match found
    case Some(queue) => (queue, id) in sv.jobs
    case None => !HasJob(sv, id)
  }

  function JobsOf(sv: Server, id: Id): set<Address> {
    set at | at in sv.jobs && at.1 == id
  }

  // ---- one instance ----

  function Purposed(inst: Instance): Purpose {
    if inst.attachOnly then ToAttach else ToSubmit
  }

  /** resolve, up to its await. */
  function Resolving(s: State, inst: Instance, purpose: Purpose): Instance {
    match Known(s.config, s.remembered, inst.id)
    case Some(queue) => inst.(phase := Resolved(purpose, queue))
    case None => inst.(phase := Looking(purpose))
  }

  /** ready, once no cached placement serves. */
  function Proceeding(s: State, inst: Instance): Instance {
    if inst.job.Some? then inst.(phase := AwaitingPod) else Resolving(s, inst, Purposed(inst))
  }

  function With(s: State, i: nat, inst: Instance): State
    requires i < |s.instances|
  {
    s.(instances := s.instances[i := inst])
  }

  // ---- steps ----

  predicate At(s: State, i: nat) { i < |s.instances| }

  predicate Enabled(s: State, a: Action) {
    match a
    case Create(_, _, _) => true
    case StartReady(i) => At(s, i) && s.instances[i].phase.Idle?
    case KnownHealthy(i) => At(s, i) && s.instances[i].phase.CheckingKnown?
    case KnownGone(i) => At(s, i) && s.instances[i].phase.CheckingKnown?
    case StartDestroy(i) => At(s, i) && s.instances[i].phase.Idle?
    case LookoutAnswers(i, answer) =>
      At(s, i) && s.instances[i].phase.Looking? && LookoutSays(s.server, s.instances[i].id, answer)
    case LookoutFails(i) => At(s, i) && s.instances[i].phase.Looking?
    case Settles(i) => At(s, i) && s.instances[i].phase.Answered?
    case SubmitLands(i) => At(s, i) && s.instances[i].phase.Resolved? && s.instances[i].phase.purpose.ToSubmit?
    case SubmitReturns(i) => At(s, i) && s.instances[i].phase.Submitted?
    case JobFound(i) => At(s, i) && s.instances[i].phase.Resolved? && s.instances[i].phase.purpose.ToAttach?
                        && (s.instances[i].phase.queue, s.instances[i].id) in s.server.jobs
    case PodSeen(i) => At(s, i) && s.instances[i].phase.AwaitingPod? && s.instances[i].job.Some?
                       && s.instances[i].job.value.jobId in s.server.running
    case UrlSeen(i) => At(s, i) && s.instances[i].phase.AwaitingUrl? && s.instances[i].job.Some?
                       && s.instances[i].pod.Some? && s.instances[i].job.value.jobId in s.server.exposed
    case AgentReady(i) => At(s, i) && s.instances[i].phase.CheckingNew?
                          && s.instances[i].job.Some? && s.instances[i].pod.Some?
    case CancelLands(i) => At(s, i) && ((s.instances[i].phase.Cancelling? && s.instances[i].job.Some?)
                           || (s.instances[i].phase.Resolved? && s.instances[i].phase.purpose.ToDestroy?))
    case DestroyReturns(i) => At(s, i) && s.instances[i].phase.CancelAnswered?
    case CallFails(i, stillSent) =>
      At(s, i)
      && !(s.instances[i].phase.Idle? || s.instances[i].phase.CheckingKnown? || s.instances[i].phase.Looking?
           || s.instances[i].phase.Answered?)
      && (stillSent ==> s.instances[i].phase.Resolved? && s.instances[i].phase.purpose.ToSubmit?)
    case ListAnswers(found) => forall id :: id in found ==> (found[id], id) in s.server.jobs
    case ListApplies(found) => found in s.lists
    case JobRuns(job, _) => job < s.server.next && job !in s.server.running
    case JobExposed(job, _) => job < s.server.next && job !in s.server.exposed
    case LateLands(at) => at in s.late
    case Restart(config, sent) => config.queue == s.config.queue && forall at :: at in sent ==> InFlight(s, at)
  }

  /** A submit that has been sent. */
  predicate InFlight(s: State, at: Address) {
    exists i :: 0 <= i < |s.instances| && s.instances[i].id == at.1 && s.instances[i].phase == Resolved(ToSubmit, at.0)
  }

  function Apply(s: State, a: Action): State
    requires Enabled(s, a)
  {
    match a
    case Create(id, owner, attachOnly) =>
      s.(instances := s.instances + [Instance(id, owner, attachOnly, None, None, None, Idle)])
    case StartReady(i) =>
      var inst := s.instances[i];
      if inst.channel.Some? then s
      else if inst.id in s.placements then With(s, i, inst.(phase := CheckingKnown(s.placements[inst.id])))
      else With(s, i, Proceeding(s, inst))
    case KnownHealthy(i) =>
      var known := s.instances[i].phase.known;
      With(s, i, s.instances[i].(job := Some(known.job), pod := Some(known.pod), channel := Some(known.channel), phase := Idle))
    case KnownGone(i) =>
      With(s, i, Proceeding(s, s.instances[i])).(placements := s.placements - {s.instances[i].id})
    case StartDestroy(i) =>
      var inst := s.instances[i];
      With(s, i, if inst.job.Some? then inst.(phase := Cancelling) else Resolving(s, inst, ToDestroy))
    case LookoutAnswers(i, answer) =>
      With(s, i, s.instances[i].(phase := Answered(s.instances[i].phase.purpose, answer)))
    case LookoutFails(i) => With(s, i, s.instances[i].(phase := Idle))
    case Settles(i) =>
      var inst := s.instances[i];
      var queue := Settled(s.config, inst.owner, inst.phase.found);
      With(s, i, inst.(phase := Resolved(inst.phase.purpose, queue))).(remembered := s.remembered[inst.id := queue])
    case SubmitLands(i) =>
      var inst := s.instances[i];
      var at := (inst.phase.queue, inst.id);
      var sv := Submit(s.server, at);
      With(s, i, inst.(phase := Submitted(SubmittedJob(sv.jobs[at], inst.id, inst.phase.queue)))).(server := sv)
    case SubmitReturns(i) =>
      With(s, i, s.instances[i].(job := Some(s.instances[i].phase.job), phase := AwaitingPod))
    case JobFound(i) =>
      var inst := s.instances[i];
      var job := SubmittedJob(s.server.jobs[(inst.phase.queue, inst.id)], inst.id, inst.phase.queue);
      With(s, i, inst.(job := Some(job), phase := AwaitingPod))
    case PodSeen(i) =>
      With(s, i, s.instances[i].(pod := Some(s.server.running[s.instances[i].job.value.jobId]), phase := AwaitingUrl))
    case UrlSeen(i) =>
      var inst := s.instances[i];
      With(s, i, inst.(phase := CheckingNew(
        Channel(s.server.exposed[inst.job.value.jobId], TokenOf(inst.id), inst.pod.value))))
    case AgentReady(i) =>
      var inst := s.instances[i];
      var channel := inst.phase.candidate;
      With(s, i, inst.(channel := Some(channel), phase := Idle))
        .(placements := s.placements[inst.id := Cached(inst.job.value, inst.pod.value, channel)])
    case CancelLands(i) =>
      var inst := s.instances[i];
      var hit := if inst.phase.Cancelling? then {inst.job.value.jobId}
                 else if (inst.phase.queue, inst.id) in s.server.jobs then {s.server.jobs[(inst.phase.queue, inst.id)]}
                 else {};
      var queue := if inst.phase.Cancelling? then inst.job.value.queue else inst.phase.queue;
      With(s, i, inst.(phase := CancelAnswered(queue, JobsOf(s.server, inst.id))))
        .(server := s.server.(cancelled := s.server.cancelled + hit))
    case DestroyReturns(i) =>
      var inst := s.instances[i];
      With(s, i, inst.(pod := None, channel := None, phase := Idle))
        .(remembered := s.remembered - {inst.id}, placements := s.placements - {inst.id})
    case CallFails(i, stillSent) =>
      var inst := s.instances[i];
      With(s, i, inst.(phase := Idle))
        .(late := if stillSent then s.late + {(inst.phase.queue, inst.id)} else s.late)
    case ListAnswers(found) => s.(lists := s.lists + {found})
    case ListApplies(found) => s.(remembered := s.remembered + found, lists := s.lists - {found})
    case JobRuns(job, pod) => s.(server := s.server.(running := s.server.running[job := pod]))
    case JobExposed(job, url) => s.(server := s.server.(exposed := s.server.exposed[job := url]))
    case LateLands(at) => s.(server := Submit(s.server, at), late := s.late - {at})
    case Restart(config, sent) => State(config, [], map[], map[], {}, s.late + sent, s.server)
  }

  // ---- the assumptions ----

  /** Where a call that has not settled its queue yet would settle it, were no
      job to exist; and where one that has is about to submit or to cancel. An
      attach that has settled its queue only looks there. */
  function HeadedFor(config: Config, inst: Instance): Option<Queue> {
    match inst.phase
    case Looking(_) => Some(PlacesAt(config, inst.owner))
    case Answered(_, found) => Some(Settled(config, inst.owner, found))
    case Resolved(purpose, queue) => if purpose.ToAttach? then None else Some(queue)
    case _ => None
  }

  /** No other call on the sandbox, and no submit still on its way, is headed
      for another queue than this instance would choose. */
  predicate Unrivalled(s: State, i: nat)
    requires At(s, i)
  {
    var mine := PlacesAt(s.config, s.instances[i].owner);
    && (forall j :: 0 <= j < |s.instances| && s.instances[j].id == s.instances[i].id ==>
          HeadedFor(s.config, s.instances[j]) in {None, Some(mine)})
    && (forall at :: at in s.late && at.1 == s.instances[i].id ==> at.0 == mine)
  }

  /** Whether the step starts a lookup for this instance. */
  predicate StartsLooking(s: State, a: Action)
    requires Enabled(s, a)
  {
    match a
    case StartReady(i) => Apply(s, a).instances[i].phase.Looking?
    case KnownGone(i) => Apply(s, a).instances[i].phase.Looking?
    case StartDestroy(i) => Apply(s, a).instances[i].phase.Looking?
    case _ => false
  }

  /** A lookup starts unrivalled unless the sandbox already has a job; and a
      process that maps no owner takes over only what is in its one queue. */
  predicate Assumed(s: State, a: Action)
    requires Enabled(s, a)
  {
    && (StartsLooking(s, a) ==> Unrivalled(Apply(s, a), a.i) || HasJob(s.server, s.instances[a.i].id))
    && (a.Restart? && !Mapped(a.config) ==>
          forall at :: at in s.server.jobs.Keys + s.late + a.sent ==> at.0 == Default(a.config))
  }

  predicate Runs(s: State, run: seq<Action>)
    decreases |run|
  {
    run == [] || (Enabled(s, run[0]) && Runs(Apply(s, run[0]), run[1..]))
  }

  predicate AssumedRun(s: State, run: seq<Action>)
    requires Runs(s, run)
    decreases |run|
  {
    run == [] || (Assumed(s, run[0]) && AssumedRun(Apply(s, run[0]), run[1..]))
  }

  function After(s: State, run: seq<Action>): State
    requires Runs(s, run)
    decreases |run|
  {
    if run == [] then s else After(Apply(s, run[0]), run[1..])
  }

  // ---- runs ----

  lemma {:induction false} NoSteps(s: State)
    ensures Runs(s, []) && After(s, []) == s && AssumedRun(s, [])
  {
  }

  lemma {:induction false} Last(s: State, a: Action)
    requires Enabled(s, a)
    ensures Runs(s, [a]) && After(s, [a]) == Apply(s, a)
    ensures AssumedRun(s, [a]) <==> Assumed(s, a)
  {
    hide Enabled, Apply, Assumed;
    assert [a][1..] == [];
  }

  lemma {:induction false} Append(s: State, run: seq<Action>, more: seq<Action>)
    requires Runs(s, run) && Runs(After(s, run), more)
    ensures Runs(s, run + more) && After(s, run + more) == After(After(s, run), more)
    ensures AssumedRun(s, run + more) <==> AssumedRun(s, run) && AssumedRun(After(s, run), more)
    decreases |run|
  {
    hide Enabled, Apply, Assumed;
    if run == [] {
      assert run + more == more;
    } else {
      Append(Apply(s, run[0]), run[1..], more);
      assert (run + more)[1..] == run[1..] + more;
    }
  }

  lemma {:induction false} Pair(s: State, a: Action, b: Action)
    requires Enabled(s, a) && Enabled(Apply(s, a), b)
    ensures Runs(s, [a, b]) && After(s, [a, b]) == Apply(Apply(s, a), b)
    ensures AssumedRun(s, [a, b]) <==> Assumed(s, a) && Assumed(Apply(s, a), b)
  {
    hide Enabled, Apply, Assumed;
    Last(s, a);
    Last(Apply(s, a), b);
    Append(s, [a], [b]);
    assert [a] + [b] == [a, b];
  }
}
