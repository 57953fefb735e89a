/**
 * What calls of the placement protocol can bring about: from wherever a call
 * is, its own steps lead to its end, given that Lookout answers, the job runs
 * and the agent is healthy. And what single steps are for.
 */
module PlacementProgress {
  import opened Common
  import opened Queues
  import opened Placement
  import opened PlacementCoherence
  import opened PlacementCalls

  /** A step of this instance's call, or of the job it waits for. */
  predicate Helps(a: Action, i: nat) {
    Actor(a) == Some(i) || a.JobRuns? || a.JobExposed?
  }

  /** An attached call can only end well where there is a job to attach to. */
  predicate CanAttach(inst: Instance, sv: Server) {
    inst.attachOnly ==>
      match inst.phase
      case Looking(_) => HasJob(sv, inst.id)
      case Answered(_, found) => found.Some?
      case Resolved(_, queue) => (queue, inst.id) in sv.jobs
      case _ => true
  }

  /** How many steps a call of ready has still to go. */
  function ReadyLeft(inst: Instance, sv: Server): nat {
    match inst.phase
    case CheckingKnown(_) => 1
    case Looking(_) => 11
    case Answered(_, _) => 10
    case Resolved(_, _) => 9
    case Submitted(_) => 8
    case AwaitingPod => if inst.job.Some? && inst.job.value.jobId in sv.running then 6 else 7
    case AwaitingUrl => if inst.job.Some? && inst.job.value.jobId in sv.exposed then 4 else 5
    case CheckingNew(_) => 3
    case _ => 0
  }

  /** Lookout has an answer to give. */
  lemma {:induction false} Answerable(sv: Server, id: Id) returns (answer: Option<Queue>)
    ensures LookoutSays(sv, id, answer) && (HasJob(sv, id) ==> answer.Some?)
  {
    if HasJob(sv, id) {
      var at :| at in sv.jobs && at.1 == id;
      answer := Some(at.0);
    } else {
      answer := None;
    }
  }

  /** What a step of such a call does when all goes well: it comes nearer to its
      end, which is a channel that is held and, if it is new, cached. */
  ghost predicate Nearer(s: State, a: Action, i: nat)
    requires Enabled(s, a) && At(s, i)
  {
    var t := Apply(s, a);
    && Helps(a, i) && At(t, i)
    && t.instances[i].id == s.instances[i].id && t.instances[i].attachOnly == s.instances[i].attachOnly
    && ReadyLeft(t.instances[i], t.server) < ReadyLeft(s.instances[i], s.server)
    && (InReady(t.instances[i]) || (t.instances[i].phase.Idle? && t.instances[i].channel.Some?))
    && (InReady(t.instances[i]) ==> CanAttach(t.instances[i], t.server) && !t.instances[i].phase.CheckingKnown?)
    && (t.instances[i].phase.Idle? && !s.instances[i].phase.CheckingKnown? ==> IsCached(t, i))
  }

  predicate IsCached(s: State, i: nat)
    requires At(s, i)
  {
    var inst := s.instances[i];
    && inst.job.Some? && inst.pod.Some? && inst.channel.Some? && inst.id in s.placements
    && s.placements[inst.id] == Cached(inst.job.value, inst.pod.value, inst.channel.value)
  }

  lemma {:induction false} AskingNearer(s: State, i: nat) returns (a: Action)
    requires Coherent(s) && At(s, i) && InReady(s.instances[i]) && CanAttach(s.instances[i], s.server)
    requires var phase := s.instances[i].phase; phase.Looking? || phase.Answered? || phase.Resolved? || phase.Submitted?
    ensures Enabled(s, a) && Nearer(s, a, i)
  {
    hide Coherent, HasJob, HoldsOk, CachedOk, ChannelOk, PodOk, Submit;
    InstanceAt(s, i);
    var inst := s.instances[i];
    match inst.phase
    case Looking(_) =>
      var answer := Answerable(s.server, inst.id);
      a := LookoutAnswers(i, answer);
    case Answered(_, _) => a := Settles(i);
    case Resolved(purpose, queue) =>
      if purpose.ToSubmit? {
        a := SubmitLands(i);
        SubmitGives(s.server, (queue, inst.id));
      } else {
        a := JobFound(i);
      }
    case Submitted(_) => a := SubmitReturns(i);
    case _ =>
  }

  lemma {:induction false} SubmitGives(sv: Server, at: Address)
    ensures at in Submit(sv, at).jobs
  {
  }

  lemma {:induction false} ReachingNearer(s: State, i: nat, pod: Pod, url: Url) returns (a: Action)
    requires Coherent(s) && At(s, i) && InReady(s.instances[i])
    requires var phase := s.instances[i].phase;
             phase.CheckingKnown? || phase.AwaitingPod? || phase.AwaitingUrl? || phase.CheckingNew?
    ensures Enabled(s, a) && Nearer(s, a, i)
    ensures a.JobRuns? ==> a.pod == pod
    ensures a.JobExposed? ==> a.url == url
  {
    hide Coherent, HasJob, LookoutSays, CachedOk, ChannelOk, PodOk, JobOk, Submit, Settled, JobsOf, Resolving, Proceeding;
    InstanceAt(s, i);
    var inst := s.instances[i];
    match inst.phase
    case CheckingKnown(_) => a := KnownHealthy(i);
    case AwaitingPod =>
      JobNumbered(s, i);
      a := if inst.job.value.jobId in s.server.running then PodSeen(i) else JobRuns(inst.job.value.jobId, pod);
    case AwaitingUrl =>
      JobNumbered(s, i);
      a := if inst.job.value.jobId in s.server.exposed then UrlSeen(i) else JobExposed(inst.job.value.jobId, url);
    case CheckingNew(_) => a := AgentReady(i);
    case _ =>
  }

  lemma {:induction false} JobNumbered(s: State, i: nat)
    requires Coherent(s) && At(s, i) && s.instances[i].job.Some?
    ensures s.instances[i].job.value.jobId < s.server.next
  {
    hide CachedOk, ChannelOk, PodOk, PhaseOk, ListsOk, PlacementsOk;
    assert InstanceOk(s.instances[i], s.server);
  }

  /** From wherever a call of ready is, it can come to hold a channel, which is
      then cached unless it came from the cache. */
  lemma {:induction false} ReadyCompletes(s: State, i: nat, pod: Pod, url: Url) returns (run: seq<Action>)
    requires Coherent(s) && At(s, i) && InReady(s.instances[i]) && CanAttach(s.instances[i], s.server)
    ensures Runs(s, run) && forall k :: 0 <= k < |run| ==> Helps(run[k], i)
    ensures At(After(s, run), i) && Coherent(After(s, run))
    ensures var t := After(s, run);
            && t.instances[i].id == s.instances[i].id
            && t.instances[i].phase.Idle? && t.instances[i].channel.Some?
            && (s.instances[i].phase.CheckingKnown? || IsCached(t, i))
    decreases ReadyLeft(s.instances[i], s.server)
  {
    hide Coherent, Apply, Enabled, ReadyLeft, CanAttach, Helps, IsCached;
    var phase := s.instances[i].phase;
    var a: Action;
    if phase.Looking? || phase.Answered? || phase.Resolved? || phase.Submitted? {
      a := AskingNearer(s, i);
    } else {
      a := ReachingNearer(s, i, pod, url);
    }
    var t := Apply(s, a);
    StepCoheres(s, a);
    var rest: seq<Action> := [];
    if InReady(t.instances[i]) {
      rest := ReadyCompletes(t, i, pod, url);
    }
    Prepend(s, a, rest);
    run := [a] + rest;
  }

  lemma {:induction false} Prepend(s: State, a: Action, rest: seq<Action>)
    requires Enabled(s, a) && Runs(Apply(s, a), rest)
    ensures Runs(s, [a] + rest) && After(s, [a] + rest) == After(Apply(s, a), rest)
  {
    hide Enabled, Apply;
    assert ([a] + rest)[1..] == rest;
  }

  /** So a sandbox can always be made ready: from every coherent state, for any
      instance that may submit, there is a run of its call alone at the end of
      which it holds the channel of a job of that sandbox. */
  lemma {:induction false} CanBecomeReady(s: State, i: nat, pod: Pod, url: Url) returns (run: seq<Action>)
    requires Coherent(s) && At(s, i) && s.instances[i].phase.Idle? && !s.instances[i].attachOnly
    ensures Runs(s, run) && At(After(s, run), i)
    ensures forall k :: 0 <= k < |run| ==> Helps(run[k], i)
    ensures var inst, sv := After(s, run).instances[i], After(s, run).server;
            && inst.id == s.instances[i].id && inst.phase.Idle?
            && inst.channel.Some? && inst.job.Some? && (inst.job.value.queue, inst.id) in sv.jobs
            && inst.job.value.jobId in sv.exposed && inst.channel.value.url == sv.exposed[inst.job.value.jobId]
  {
    hide Coherent, Apply, Enabled, HasJob, Helps, Runs, After, IsCached;
    if s.instances[i].channel.Some? {
      run := [];
      Nothing(s);
      HeldChannel(s, i);
    } else {
      StartsReady(s, i);
      StepCoheres(s, StartReady(i));
      var t := Apply(s, StartReady(i));
      var rest := ReadyCompletes(t, i, pod, url);
      Prepend(s, StartReady(i), rest);
      run := [StartReady(i)] + rest;
      HeldChannel(After(t, rest), i);
    }
  }

  lemma {:induction false} Nothing(s: State)
    ensures Runs(s, []) && After(s, []) == s
  {
  }

  lemma {:induction false} StartsReady(s: State, i: nat)
    requires At(s, i) && s.instances[i].phase.Idle? && s.instances[i].channel == None
    ensures Enabled(s, StartReady(i)) && Helps(StartReady(i), i) && At(Apply(s, StartReady(i)), i)
    ensures var t := Apply(s, StartReady(i));
            && InReady(t.instances[i]) && t.instances[i].id == s.instances[i].id
            && t.instances[i].attachOnly == s.instances[i].attachOnly
            && (!s.instances[i].attachOnly ==> CanAttach(t.instances[i], t.server))
  {
    hide HasJob, Known;
  }

  lemma {:induction false} HeldChannel(s: State, i: nat)
    requires Coherent(s) && At(s, i) && s.instances[i].channel.Some?
    ensures var inst, sv := s.instances[i], s.server;
            && inst.job.Some? && (inst.job.value.queue, inst.id) in sv.jobs
            && inst.job.value.jobId in sv.exposed && inst.channel.value.url == sv.exposed[inst.job.value.jobId]
  {
    hide Coherent, PhaseOk;
    InstanceAt(s, i);
  }

  // ---- the cache ----

  /** A sandbox that this process has reached is reached again at the cost of
      one health check, by whatever instance: nothing is asked or submitted. */
  lemma {:induction false} CacheServes(s: State, i: nat)
    requires At(s, i) && s.instances[i].phase.Idle? && s.instances[i].channel == None
    requires s.instances[i].id in s.placements
    ensures var run := [StartReady(i), KnownHealthy(i)];
            Runs(s, run) && At(After(s, run), i)
            && var inst, cached := After(s, run).instances[i], s.placements[s.instances[i].id];
               inst.phase.Idle? && inst.channel == Some(cached.channel)
               && inst.job == Some(cached.job) && inst.pod == Some(cached.pod)
               && After(s, run).server == s.server && After(s, run).placements == s.placements
  {
    hide HasJob, Runs, After;
    Pair(s, StartReady(i), KnownHealthy(i));
  }

  /** A cached placement whose agent does not answer is dropped, and the call
      goes on as if it had not been there. */
  lemma {:induction false} GoneIsDropped(s: State, i: nat)
    requires At(s, i) && s.instances[i].phase.CheckingKnown? && Coherent(s)
    ensures Enabled(s, KnownGone(i))
    ensures var t := Apply(s, KnownGone(i));
            && At(t, i) && s.instances[i].id !in t.placements && t.server == s.server
            && InReady(t.instances[i]) && !t.instances[i].phase.CheckingKnown?
            && (forall id :: id != s.instances[i].id && id in s.placements ==>
                  id in t.placements && t.placements[id] == s.placements[id])
  {
    hide Coherent, Known;
  }

  // ---- destroy ----

  /** Within a call of destroy. */
  predicate InDestroy(inst: Instance) {
    match inst.phase
    case Looking(purpose) => purpose.ToDestroy?
    case Answered(purpose, _) => purpose.ToDestroy?
    case Resolved(purpose, _) => purpose.ToDestroy?
    case Cancelling => true
    case CancelAnswered(_, _) => true
    case _ => false
  }

  function DestroyLeft(inst: Instance): nat {
    match inst.phase
    case Looking(_) => 4
    case Answered(_, _) => 3
    case Resolved(_, _) => 2
    case Cancelling => 2
    case CancelAnswered(_, _) => 1
    case _ => 0
  }

  /** The address that the call is about to cancel, once it is known. */
  function Target(inst: Instance): Option<Address> {
    match inst.phase
    case Answered(_, Some(queue)) => Some((queue, inst.id))
    case Resolved(_, queue) => Some((queue, inst.id))
    case Cancelling => if inst.job.Some? then Some((inst.job.value.queue, inst.id)) else None
    case _ => None
  }

  /** The job at the address is cancelled. */
  predicate IsCancelled(sv: Server, at: Address) {
    at in sv.jobs && sv.jobs[at] in sv.cancelled
  }

  lemma {:induction false} DestroyNearer(s: State, i: nat) returns (a: Action)
    requires Coherent(s) && At(s, i) && InDestroy(s.instances[i])
    ensures Enabled(s, a) && Actor(a) == Some(i) && At(Apply(s, a), i)
    ensures var t := Apply(s, a);
            && t.instances[i].id == s.instances[i].id && t.server.jobs == s.server.jobs
            && DestroyLeft(t.instances[i]) < DestroyLeft(s.instances[i])
            && (forall at :: IsCancelled(s.server, at) ==> IsCancelled(t.server, at))
            && (InDestroy(t.instances[i]) || (t.instances[i].phase.Idle? && Forgotten(t, i)))
            && (s.instances[i].phase.Looking? && HasJob(s.server, s.instances[i].id) ==>
                  Target(t.instances[i]).Some? && Target(t.instances[i]).value in t.server.jobs)
            && (Target(s.instances[i]).Some? && Target(s.instances[i]).value in s.server.jobs ==>
                  Target(t.instances[i]) == Target(s.instances[i]) || IsCancelled(t.server, Target(s.instances[i]).value))
            && (InDestroy(t.instances[i]) ==> InDestroy(s.instances[i]))
  {
    hide Coherent, HasJob, CachedOk, ChannelOk, PodOk, JobsOf, Submit, Known, Resolving, Proceeding;
    InstanceAt(s, i);
    match s.instances[i].phase
    case Looking(_) =>
      var answer := Answerable(s.server, s.instances[i].id);
      a := LookoutAnswers(i, answer);
    case Answered(_, _) => a := Settles(i);
    case CancelAnswered(_, _) => a := DestroyReturns(i);
    case _ => a := CancelLands(i);
  }

  /** Nothing of the sandbox is left: no pod or channel on the instance, and
      neither its queue nor its placement remembered. */
  predicate Forgotten(s: State, i: nat)
    requires At(s, i)
  {
    var inst := s.instances[i];
    inst.pod == None && inst.channel == None && inst.id !in s.remembered && inst.id !in s.placements
  }

  /** From wherever a call of destroy is, it can come to its end: a job that is
      there to be found is cancelled, and the sandbox is forgotten. */
  lemma {:induction false} DestroyCompletes(s: State, i: nat) returns (run: seq<Action>)
    requires Coherent(s) && At(s, i) && InDestroy(s.instances[i])
    ensures Runs(s, run) && forall k :: 0 <= k < |run| ==> Actor(run[k]) == Some(i)
    ensures At(After(s, run), i)
    ensures var t := After(s, run);
            && t.instances[i].id == s.instances[i].id && t.server.jobs == s.server.jobs
            && t.instances[i].phase.Idle? && Forgotten(t, i)
            && (forall at :: IsCancelled(s.server, at) ==> IsCancelled(t.server, at))
            && (s.instances[i].phase.Looking? && HasJob(s.server, s.instances[i].id) ==>
                  exists at: Address :: at.1 == s.instances[i].id && IsCancelled(t.server, at))
            && (Target(s.instances[i]).Some? && Target(s.instances[i]).value in s.server.jobs ==>
                  IsCancelled(t.server, Target(s.instances[i]).value))
    decreases DestroyLeft(s.instances[i])
  {
    hide Coherent, Apply, Enabled, DestroyLeft, HasJob, Actor, IsCancelled, Forgotten;
    var a := DestroyNearer(s, i);
    var t := Apply(s, a);
    StepCoheres(s, a);
    var rest: seq<Action> := [];
    if InDestroy(t.instances[i]) {
      rest := DestroyCompletes(t, i);
    }
    Prepend(s, a, rest);
    run := [a] + rest;
  }

  /** So any sandbox can be destroyed: the job the instance holds, else the one
      in the queue that is remembered or Lookout names, is cancelled. */
  lemma {:induction false} CanBeDestroyed(s: State, i: nat) returns (run: seq<Action>)
    requires Coherent(s) && At(s, i) && s.instances[i].phase.Idle?
    ensures Runs(s, run) && At(After(s, run), i) && forall k :: 0 <= k < |run| ==> Actor(run[k]) == Some(i)
    ensures var inst, t := s.instances[i], After(s, run);
            && t.instances[i].id == inst.id && t.instances[i].phase.Idle? && Forgotten(t, i)
            && (inst.job.Some? ==> inst.job.value.jobId in t.server.cancelled)
            && (inst.job == None && Known(s.config, s.remembered, inst.id) == None && HasJob(s.server, inst.id) ==>
                  exists at: Address :: at.1 == inst.id && IsCancelled(t.server, at))
            && (inst.job == None && Known(s.config, s.remembered, inst.id).Some? ==>
                  var at := (Known(s.config, s.remembered, inst.id).value, inst.id);
                  at in s.server.jobs ==> IsCancelled(t.server, at))
  {
    hide Coherent, Apply, Enabled, HasJob, Actor, Known, Runs, After, Forgotten;
    StartsDestroy(s, i);
    StepCoheres(s, StartDestroy(i));
    var rest := DestroyCompletes(Apply(s, StartDestroy(i)), i);
    Prepend(s, StartDestroy(i), rest);
    run := [StartDestroy(i)] + rest;
  }

  lemma {:induction false} StartsDestroy(s: State, i: nat)
    requires Coherent(s) && At(s, i) && s.instances[i].phase.Idle?
    ensures Enabled(s, StartDestroy(i)) && Actor(StartDestroy(i)) == Some(i) && At(Apply(s, StartDestroy(i)), i)
    ensures var inst, t := s.instances[i], Apply(s, StartDestroy(i));
            && t.instances[i].id == inst.id && t.server == s.server && InDestroy(t.instances[i])
            && (inst.job.Some? ==>
                  Target(t.instances[i]) == Some((inst.job.value.queue, inst.id))
                  && (inst.job.value.queue, inst.id) in s.server.jobs
                  && s.server.jobs[(inst.job.value.queue, inst.id)] == inst.job.value.jobId)
            && (inst.job == None ==>
                  match Known(s.config, s.remembered, inst.id)
                  case Some(queue) => Target(t.instances[i]) == Some((queue, inst.id))
                  case None => t.instances[i].phase.Looking?)
  {
    hide Coherent, Known, HasJob, PhaseOk, PodOk, ChannelOk;
    InstanceAt(s, i);
  }

  // ---- what was given up, and what is remembered ----

  /** A submit whose caller gave up on it may still arrive, and then there is a
      job; */
  lemma {:induction false} GivenUpMayLand(s: State, i: nat)
    requires At(s, i) && s.instances[i].phase.Resolved? && s.instances[i].phase.purpose == ToSubmit
    ensures var at := (s.instances[i].phase.queue, s.instances[i].id);
            && Runs(s, [CallFails(i, true), LateLands(at)])
            && at in After(s, [CallFails(i, true), LateLands(at)]).server.jobs
            && at !in After(s, [CallFails(i, true), LateLands(at)]).late
  {
    hide Runs, After, HasJob, Submit;
    var at := (s.instances[i].phase.queue, s.instances[i].id);
    Pair(s, CallFails(i, true), LateLands(at));
    SubmitGives(s.server, at);
  }

  /** and so may one that was on its way when the process was restarted. */
  lemma {:induction false} SentMayLand(s: State, i: nat, config: Config)
    requires At(s, i) && s.instances[i].phase.Resolved? && s.instances[i].phase.purpose == ToSubmit
    requires config.queue == s.config.queue
    ensures var at := (s.instances[i].phase.queue, s.instances[i].id);
            && Runs(s, [Restart(config, {at}), LateLands(at)])
            && at in After(s, [Restart(config, {at}), LateLands(at)]).server.jobs
  {
    hide Runs, After, HasJob, Submit;
    var at := (s.instances[i].phase.queue, s.instances[i].id);
    assert InFlight(s, at);
    Pair(s, Restart(config, {at}), LateLands(at));
    SubmitGives(s.server, at);
  }

  /** What a restart leaves: the jobs and the submits on their way. */
  lemma {:induction false} RestartForgets(s: State, config: Config, sent: set<Address>)
    requires config.queue == s.config.queue && forall at :: at in sent ==> InFlight(s, at)
    ensures Enabled(s, Restart(config, sent))
    ensures var t := Apply(s, Restart(config, sent));
            && t.instances == [] && t.remembered == map[] && t.placements == map[] && t.lists == {}
            && t.server == s.server && t.late == s.late + sent && t.config == config
  {
  }

  /** A list of what is active, once it has arrived, answers for its sandboxes
      in place of Lookout, over whatever was remembered, and for no others. */
  lemma {:induction false} ListedIsKnown(s: State, found: map<Id, Queue>, id: Id)
    requires forall id' :: id' in found ==> (found[id'], id') in s.server.jobs
    ensures Enabled(s, ListAnswers(found)) && Enabled(Apply(s, ListAnswers(found)), ListApplies(found))
    ensures var t := Apply(Apply(s, ListAnswers(found)), ListApplies(found));
            && (id in found ==> Known(t.config, t.remembered, id) == Some(found[id]))
            && (id !in found ==> Known(t.config, t.remembered, id) == Known(s.config, s.remembered, id))
            && t.server == s.server && t.instances == s.instances && t.placements == s.placements
            && found !in t.lists
  {
    hide LookoutSays, HasJob, Mapped, Default;
  }

  /** A queue that a call has settled answers later calls on the sandbox. */
  lemma {:induction false} SettledIsKnown(s: State, i: nat)
    requires At(s, i) && s.instances[i].phase.Answered?
    ensures Enabled(s, Settles(i))
    ensures var t := Apply(s, Settles(i));
            && At(t, i) && t.instances[i].phase.Resolved?
            && Known(t.config, t.remembered, s.instances[i].id) == Some(t.instances[i].phase.queue)
            && (s.instances[i].phase.found.Some? ==> t.instances[i].phase.queue == s.instances[i].phase.found.value)
            && (forall id :: id != s.instances[i].id ==>
                  Known(t.config, t.remembered, id) == Known(s.config, s.remembered, id))
  {
    hide PlacesAt;
  }
}
