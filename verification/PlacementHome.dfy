/**
 * One queue per sandbox, over all runs in which no lookup is rivalled: jobs,
 * memory, late submits and the calls under way agree on it. The proof carries
 * the queue each sandbox has at the moment, its home, which moves only when a
 * lookup starts on a sandbox without a job.
 */
module PlacementHome {
  import opened Common
  import opened Queues
  import opened Placement
  import opened PlacementCoherence

  // ---- the invariant ----

  /** The one queue of a sandbox: the choice in force, the default without one. */
  function Home(home: map<Id, Queue>, config: Config, id: Id): Queue {
    if id in home then home[id] else Default(config)
  }

  predicate AtHome(at: Address, home: map<Id, Queue>, config: Config) {
    at.0 == Home(home, config, at.1)
  }

  predicate AllHome(ats: set<Address>, home: map<Id, Queue>, config: Config) {
    forall at :: at in ats ==> AtHome(at, home, config)
  }

  predicate RememberedHome(remembered: map<Id, Queue>, home: map<Id, Queue>, config: Config) {
    forall id :: id in remembered ==> remembered[id] == Home(home, config, id)
  }

  /** A call that may still submit or cancel is headed home; and a cancel that
      was answered had hit every job there was. */
  predicate PhaseHome(inst: Instance, sv: Server, home: map<Id, Queue>, config: Config) {
    var h := Home(home, config, inst.id);
    match inst.phase
    case Looking(_) => HasJob(sv, inst.id) || PlacesAt(config, inst.owner) == h
    case Answered(_, found) => Settled(config, inst.owner, found) == h
    case Resolved(purpose, queue) => purpose.ToAttach? || queue == h
    case CancelAnswered(queue, seen) =>
      forall at :: at in seen ==> at.0 == queue && at in sv.jobs && sv.jobs[at] in sv.cancelled
    case _ => true
  }

  predicate InstancesHome(instances: seq<Instance>, sv: Server, home: map<Id, Queue>, config: Config) {
    forall i :: 0 <= i < |instances| ==> PhaseHome(instances[i], sv, home, config)
  }

  /** With no map, every sandbox is in the default queue. */
  predicate HomeOk(home: map<Id, Queue>, config: Config) {
    Mapped(config) || forall id :: id in home ==> home[id] == Default(config)
  }

  predicate PartsHome(
    config: Config, sv: Server, instances: seq<Instance>, remembered: map<Id, Queue>, late: set<Address>,
    home: map<Id, Queue>)
  {
    && AllHome(sv.jobs.Keys, home, config) && AllHome(late, home, config)
    && RememberedHome(remembered, home, config)
    && InstancesHome(instances, sv, home, config)
    && HomeOk(home, config)
  }

  predicate AtOneHome(s: State, home: map<Id, Queue>) {
    PartsHome(s.config, s.server, s.instances, s.remembered, s.late, home)
  }

  predicate Inv(s: State, home: map<Id, Queue>) {
    Coherent(s) && AtOneHome(s, home)
  }

  // ---- pieces of a step ----

  lemma {:induction false} WithHome(s: State, home: map<Id, Queue>, i: nat, inst: Instance)
    requires AtOneHome(s, home) && At(s, i) && PhaseHome(inst, s.server, home, s.config)
    ensures AtOneHome(With(s, i, inst), home)
  {
    hide PhaseHome, AllHome, RememberedHome, HomeOk;
  }

  lemma {:induction false} PhaseAt(s: State, home: map<Id, Queue>, i: nat)
    requires AtOneHome(s, home) && At(s, i)
    ensures PhaseHome(s.instances[i], s.server, home, s.config)
  {
    hide PhaseHome, AllHome, RememberedHome, HomeOk;
  }

  lemma {:induction false} GrowsHome(a: Server, b: Server, inst: Instance, home: map<Id, Queue>, config: Config)
    requires Grows(a, b) && PhaseHome(inst, a, home, config)
    ensures PhaseHome(inst, b, home, config)
  {
    hide Home, Settled, PlacesAt;
    if HasJob(a, inst.id) {
      var at :| at in a.jobs && at.1 == inst.id;
      assert at in b.jobs;
    }
    if inst.phase.CancelAnswered? {
      hide HasJob;
    }
  }

  lemma {:induction false} ServerHome(s: State, home: map<Id, Queue>, sv: Server)
    requires AtOneHome(s, home) && Grows(s.server, sv) && AllHome(sv.jobs.Keys, home, s.config)
    ensures AtOneHome(s.(server := sv), home)
  {
    hide PhaseHome, AllHome, RememberedHome, HomeOk, Grows;
    forall i | 0 <= i < |s.instances| ensures PhaseHome(s.instances[i], sv, home, s.config) {
      GrowsHome(s.server, sv, s.instances[i], home, s.config);
    }
  }

  lemma {:induction false} MemoryHome(s: State, home: map<Id, Queue>, remembered: map<Id, Queue>)
    requires AtOneHome(s, home)
    requires forall id :: id in remembered ==>
               (id in s.remembered && remembered[id] == s.remembered[id]) || remembered[id] == Home(home, s.config, id)
    ensures AtOneHome(s.(remembered := remembered), home)
  {
    hide InstancesHome, AllHome, HomeOk, Home;
  }

  lemma {:induction false} LateHome(s: State, home: map<Id, Queue>, late: set<Address>)
    requires AtOneHome(s, home) && forall at :: at in late ==> at in s.late || AtHome(at, home, s.config)
    ensures AtOneHome(s.(late := late), home)
  {
    hide InstancesHome, RememberedHome, HomeOk, AtHome;
  }

  /** Every job of a sandbox is in its one queue. */
  lemma {:induction false} JobAtHome(s: State, home: map<Id, Queue>, at: Address)
    requires AtOneHome(s, home) && at in s.server.jobs
    ensures at.0 == Home(home, s.config, at.1)
  {
    hide InstancesHome, RememberedHome, HomeOk;
    assert at in s.server.jobs.Keys;
  }

  /** The answer without a request is the home: it is remembered, or there is
      only the default. */
  lemma {:induction false} KnownIsHome(s: State, home: map<Id, Queue>, id: Id)
    requires AtOneHome(s, home)
    ensures match Known(s.config, s.remembered, id)
            case Some(queue) => queue == Home(home, s.config, id)
            case None => id !in s.remembered && Mapped(s.config)
  {
    hide InstancesHome, AllHome, Mapped;
  }

  // ---- a lookup starts ----

  /** It chooses the sandbox's home anew, unless a job has. */
  lemma {:induction false} LookingHome(s: State, home: map<Id, Queue>, i: nat, purpose: Purpose)
    returns (home': map<Id, Queue>)
    requires AtOneHome(s, home) && At(s, i)
    requires s.instances[i].id !in s.remembered && Mapped(s.config)
    requires var t := With(s, i, s.instances[i].(phase := Looking(purpose)));
             HasJob(s.server, s.instances[i].id) || Unrivalled(t, i)
    ensures AtOneHome(With(s, i, s.instances[i].(phase := Looking(purpose))), home')
  {
    hide Mapped, PlacesAt;
    var inst := s.instances[i].(phase := Looking(purpose));
    var t := With(s, i, inst);
    if HasJob(s.server, inst.id) {
      WithHome(s, home, i, inst);
      return home;
    }
    var mine := PlacesAt(s.config, inst.owner);
    home' := home[inst.id := mine];
    assert t.instances[i] == inst;
    forall j | 0 <= j < |t.instances| ensures PhaseHome(t.instances[j], s.server, home', s.config) {
      if j != i {
        assert t.instances[j] == s.instances[j];
        RebindHome(s.instances[j], inst.id, mine, s.server, home, s.config);
      }
    }
    forall at | at in s.server.jobs.Keys ensures AtHome(at, home', s.config) {
      assert AtHome(at, home, s.config) && at.1 != inst.id;
    }
    forall at | at in s.late ensures AtHome(at, home', s.config) {
      assert AtHome(at, home, s.config);
    }
  }

  /** Another call is still in order when the home moves to where it is headed. */
  lemma {:induction false} RebindHome(
    other: Instance, id: Id, mine: Queue, sv: Server, home: map<Id, Queue>, config: Config)
    requires PhaseHome(other, sv, home, config)
    requires other.id == id ==> HeadedFor(config, other) in {None, Some(mine)}
    ensures PhaseHome(other, sv, home[id := mine], config)
  {
    hide PlacesAt, Settled, HasJob;
  }

  /** resolve, from its start to its await or its answer. */
  lemma {:induction false} ResolvingHome(s: State, home: map<Id, Queue>, i: nat, purpose: Purpose)
    returns (home': map<Id, Queue>)
    requires AtOneHome(s, home) && At(s, i)
    requires var t := With(s, i, Resolving(s, s.instances[i], purpose));
             t.instances[i].phase.Looking? ==> HasJob(s.server, s.instances[i].id) || Unrivalled(t, i)
    ensures AtOneHome(With(s, i, Resolving(s, s.instances[i], purpose)), home')
  {
    hide AtOneHome, Known, Mapped, HasJob, Home, Unrivalled;
    KnownIsHome(s, home, s.instances[i].id);
    match Known(s.config, s.remembered, s.instances[i].id)
    case Some(queue) =>
      WithHome(s, home, i, s.instances[i].(phase := Resolved(purpose, queue)));
      home' := home;
    case None =>
      home' := LookingHome(s, home, i, purpose);
  }

  lemma {:induction false} ProceedingHome(s: State, home: map<Id, Queue>, i: nat) returns (home': map<Id, Queue>)
    requires AtOneHome(s, home) && At(s, i)
    requires var t := With(s, i, Proceeding(s, s.instances[i]));
             t.instances[i].phase.Looking? ==> HasJob(s.server, s.instances[i].id) || Unrivalled(t, i)
    ensures AtOneHome(With(s, i, Proceeding(s, s.instances[i])), home')
  {
    hide AtOneHome, HasJob, Home, Unrivalled, Resolving;
    if s.instances[i].job.Some? {
      WithHome(s, home, i, s.instances[i].(phase := AwaitingPod));
      home' := home;
    } else {
      home' := ResolvingHome(s, home, i, Purposed(s.instances[i]));
    }
  }

  lemma {:induction false} SamePartsHome(s: State, t: State, home: map<Id, Queue>)
    requires AtOneHome(s, home) && t.config == s.config && t.server == s.server && t.instances == s.instances
    requires t.remembered == s.remembered && t.late == s.late
    ensures AtOneHome(t, home)
  {
    hide PartsHome;
  }

  lemma {:induction false} SameRivals(s: State, t: State, i: nat)
    requires At(s, i) && t.config == s.config && t.instances == s.instances && t.late == s.late
    ensures Unrivalled(t, i) == Unrivalled(s, i)
  {
  }

  // ---- every step ----

  lemma {:induction false} StartHome(s: State, a: Action, home: map<Id, Queue>) returns (home': map<Id, Queue>)
    requires a.StartReady? || a.KnownGone? || a.StartDestroy?
    requires AtOneHome(s, home) && Enabled(s, a) && Assumed(s, a)
    ensures AtOneHome(Apply(s, a), home')
  {
    hide AtOneHome, Proceeding, Resolving, HasJob, Unrivalled, Home;
    var inst := s.instances[a.i];
    home' := home;
    match a
    case StartReady(i) =>
      if inst.channel.None? {
        if inst.id in s.placements {
          WithHome(s, home, i, inst.(phase := CheckingKnown(s.placements[inst.id])));
        } else {
          home' := ProceedingHome(s, home, i);
        }
      }
    case KnownGone(i) =>
      var t := With(s, i, Proceeding(s, inst));
      SameRivals(t, Apply(s, a), i);
      home' := ProceedingHome(s, home, i);
      SamePartsHome(t, Apply(s, a), home');
    case StartDestroy(i) =>
      if inst.job.Some? {
        WithHome(s, home, i, inst.(phase := Cancelling));
      } else {
        home' := ResolvingHome(s, home, i, ToDestroy);
      }
  }

  lemma {:induction false} LookupHome(s: State, a: Action, home: map<Id, Queue>)
    requires a.LookoutAnswers? || a.LookoutFails? || a.Settles?
    requires AtOneHome(s, home) && Enabled(s, a)
    ensures AtOneHome(Apply(s, a), home)
  {
    hide AtOneHome, HasJob, Home, PlacesAt;
    PhaseAt(s, home, a.i);
    var inst := s.instances[a.i];
    match a
    case LookoutAnswers(i, answer) =>
      if answer.Some? {
        JobAtHome(s, home, (answer.value, inst.id));
      }
      WithHome(s, home, i, inst.(phase := Answered(inst.phase.purpose, answer)));
    case LookoutFails(i) =>
      WithHome(s, home, i, inst.(phase := Idle));
    case Settles(i) =>
      var queue := Settled(s.config, inst.owner, inst.phase.found);
      var t := With(s, i, inst.(phase := Resolved(inst.phase.purpose, queue)));
      WithHome(s, home, i, t.instances[i]);
      MemoryHome(t, home, s.remembered[inst.id := queue]);
  }

  lemma {:induction false} LandingHome(s: State, home: map<Id, Queue>, at: Address)
    requires Inv(s, home) && AtHome(at, home, s.config)
    ensures AtOneHome(s.(server := Submit(s.server, at)), home)
  {
    hide InstancesHome, RememberedHome, HomeOk, AtHome, InstancesOk, ListsOk, PlacementsOk, Submit, Grows, ServerOk;
    SubmitGrows(s.server, at);
    assert AllHome(Submit(s.server, at).jobs.Keys, home, s.config);
    ServerHome(s, home, Submit(s.server, at));
  }

  lemma {:induction false} ReplyHome(s: State, a: Action, home: map<Id, Queue>)
    requires a.SubmitLands? || a.SubmitReturns? || a.JobFound? || a.KnownHealthy? || a.PodSeen? || a.UrlSeen?
             || a.AgentReady?
    requires Inv(s, home) && Enabled(s, a)
    ensures AtOneHome(Apply(s, a), home)
  {
    hide AtOneHome, HasJob, Home, PlacesAt, Submit, Coherent;
    PhaseAt(s, home, a.i);
    var inst, t := s.instances[a.i], Apply(s, a);
    if a.SubmitLands? {
      var u := s.(server := t.server);
      LandingHome(s, home, (inst.phase.queue, inst.id));
      WithHome(u, home, a.i, t.instances[a.i]);
    } else {
      WithHome(s, home, a.i, t.instances[a.i]);
      SamePartsHome(With(s, a.i, t.instances[a.i]), t, home);
    }
  }

  /** What a cancel hits: every job the sandbox has is at the address it names. */
  lemma {:induction false} CancelHits(s: State, home: map<Id, Queue>, i: nat)
    requires Inv(s, home) && Enabled(s, CancelLands(i))
    ensures var t := Apply(s, CancelLands(i));
            var seen := JobsOf(s.server, s.instances[i].id);
            t.instances[i].phase.CancelAnswered? && t.instances[i].phase.seen == seen
            && (forall at :: at in seen ==> at.0 == t.instances[i].phase.at && s.server.jobs[at] in t.server.cancelled)
  {
    hide AtOneHome, Coherent, HasJob, Home, PlacesAt, ChannelOk, PodOk, CachedOk;
    PhaseAt(s, home, i);
    InstanceAt(s, i);
    var inst := s.instances[i];
    forall at | at in JobsOf(s.server, inst.id) ensures at.0 == Home(home, s.config, inst.id) {
      JobAtHome(s, home, at);
    }
    if inst.phase.Cancelling? {
      JobAtHome(s, home, (inst.job.value.queue, inst.id));
    }
  }

  lemma {:induction false} CancelHome(s: State, a: Action, home: map<Id, Queue>)
    requires a.CancelLands? || a.DestroyReturns?
    requires Inv(s, home) && Enabled(s, a)
    ensures AtOneHome(Apply(s, a), home)
  {
    hide AtOneHome, Coherent, HasJob, Home, PlacesAt;
    var inst, t := s.instances[a.i], Apply(s, a);
    match a
    case CancelLands(i) =>
      CancelHits(s, home, i);
      CancelledHome(s, home, t.server.cancelled);
      WithHome(s.(server := t.server), home, i, t.instances[i]);
    case DestroyReturns(i) =>
      var inst' := inst.(pod := None, channel := None, phase := Idle);
      var u := With(s, i, inst');
      WithHome(s, home, i, inst');
      MemoryHome(u, home, s.remembered - {inst.id});
      SamePartsHome(u.(remembered := s.remembered - {inst.id}), t, home);
  }

  lemma {:induction false} CancelledHome(s: State, home: map<Id, Queue>, cancelled: set<JobId>)
    requires AtOneHome(s, home) && s.server.cancelled <= cancelled
    ensures AtOneHome(s.(server := s.server.(cancelled := cancelled)), home)
  {
    hide InstancesHome, RememberedHome, HomeOk, AllHome;
    ServerHome(s, home, s.server.(cancelled := cancelled));
  }

  lemma {:induction false} FailureHome(s: State, a: Action, home: map<Id, Queue>)
    requires a.CallFails? && AtOneHome(s, home) && Enabled(s, a)
    ensures AtOneHome(Apply(s, a), home)
  {
    hide AtOneHome, HasJob, Home, PlacesAt;
    PhaseAt(s, home, a.i);
    var inst := s.instances[a.i];
    var t := With(s, a.i, inst.(phase := Idle));
    WithHome(s, home, a.i, inst.(phase := Idle));
    LateHome(t, home, Apply(s, a).late);
  }

  lemma {:induction false} ListHome(s: State, a: Action, home: map<Id, Queue>)
    requires a.ListAnswers? || a.ListApplies?
    requires Inv(s, home) && Enabled(s, a)
    ensures AtOneHome(Apply(s, a), home)
  {
    hide InstancesHome, HomeOk, Home, ServerOk, InstancesOk, PlacementsOk;
    if a.ListApplies? {
      assert ListKnown(a.found, s.server);
    }
  }

  lemma {:induction false} WorldHome(s: State, a: Action, home: map<Id, Queue>)
    requires a.JobRuns? || a.JobExposed? || a.LateLands? || a.Create?
    requires Inv(s, home) && Enabled(s, a)
    ensures AtOneHome(Apply(s, a), home)
  {
    hide InstancesHome, RememberedHome, HomeOk, Home, Coherent, Submit;
    match a
    case JobRuns(job, pod) => ServerHome(s, home, s.server.(running := s.server.running[job := pod]));
    case JobExposed(job, url) => ServerHome(s, home, s.server.(exposed := s.server.exposed[job := url]));
    case LateLands(at) =>
      LandingHome(s, home, at);
      LateHome(s.(server := Submit(s.server, at)), home, s.late - {at});
    case Create(id, owner, attachOnly) =>
      NewInstanceHome(s, home, Instance(id, owner, attachOnly, None, None, None, Idle));
  }

  lemma {:induction false} NewInstanceHome(s: State, home: map<Id, Queue>, inst: Instance)
    requires AtOneHome(s, home) && PhaseHome(inst, s.server, home, s.config)
    ensures AtOneHome(s.(instances := s.instances + [inst]), home)
  {
    hide PhaseHome, AllHome, RememberedHome, HomeOk;
  }

  lemma {:induction false} RestartHome(s: State, a: Action, home: map<Id, Queue>) returns (home': map<Id, Queue>)
    requires a.Restart? && AtOneHome(s, home) && Enabled(s, a) && Assumed(s, a)
    ensures AtOneHome(Apply(s, a), home')
  {
    hide Mapped;
    forall at | at in a.sent ensures AtHome(at, home, s.config) {
      assert InFlight(s, at);
      var i :| 0 <= i < |s.instances| && s.instances[i].id == at.1 && s.instances[i].phase == Resolved(ToSubmit, at.0);
      assert PhaseHome(s.instances[i], s.server, home, s.config);
    }
    home' := if Mapped(a.config) then home else map[];
  }

  /** Every step keeps the invariant, with a home that moves only when a lookup
      starts on a sandbox without a job. */
  lemma {:induction false} StepKeeps(s: State, a: Action, home: map<Id, Queue>) returns (home': map<Id, Queue>)
    requires Inv(s, home) && Enabled(s, a) && Assumed(s, a)
    ensures Inv(Apply(s, a), home')
  {
    hide Coherent, AtOneHome, Enabled, Assumed, Apply;
    StepCoheres(s, a);
    home' := home;
    match a
    case StartReady(_) => home' := StartHome(s, a, home);
    case KnownGone(_) => home' := StartHome(s, a, home);
    case StartDestroy(_) => home' := StartHome(s, a, home);
    case LookoutAnswers(_, _) => LookupHome(s, a, home);
    case LookoutFails(_) => LookupHome(s, a, home);
    case Settles(_) => LookupHome(s, a, home);
    case SubmitLands(_) => ReplyHome(s, a, home);
    case SubmitReturns(_) => ReplyHome(s, a, home);
    case JobFound(_) => ReplyHome(s, a, home);
    case KnownHealthy(_) => ReplyHome(s, a, home);
    case PodSeen(_) => ReplyHome(s, a, home);
    case UrlSeen(_) => ReplyHome(s, a, home);
    case AgentReady(_) => ReplyHome(s, a, home);
    case CancelLands(_) => CancelHome(s, a, home);
    case DestroyReturns(_) => CancelHome(s, a, home);
    case CallFails(_, _) => FailureHome(s, a, home);
    case ListAnswers(_) => ListHome(s, a, home);
    case ListApplies(_) => ListHome(s, a, home);
    case JobRuns(_, _) => WorldHome(s, a, home);
    case JobExposed(_, _) => WorldHome(s, a, home);
    case LateLands(_) => WorldHome(s, a, home);
    case Create(_, _, _) => WorldHome(s, a, home);
    case Restart(_, _) => home' := RestartHome(s, a, home);
  }

  lemma {:induction false} RunKeeps(s: State, run: seq<Action>, home: map<Id, Queue>) returns (home': map<Id, Queue>)
    requires Inv(s, home) && Runs(s, run) && AssumedRun(s, run)
    ensures Inv(After(s, run), home')
    decreases |run|
  {
    hide Inv, Enabled, Assumed, Apply;
    if run == [] {
      home' := home;
    } else {
      var next := StepKeeps(s, run[0], home);
      home' := RunKeeps(Apply(s, run[0]), run[1..], next);
    }
  }

  lemma {:induction false} Reached(config: Config, run: seq<Action>) returns (home: map<Id, Queue>)
    requires Runs(Initial(config), run) && AssumedRun(Initial(config), run)
    ensures Inv(After(Initial(config), run), home)
  {
    hide AssumedRun, Runs, After, Coherent;
    InitialCoheres(config);
    home := RunKeeps(Initial(config), run, map[]);
  }

  // ---- what holds in every run ----

  /** At most one job per sandbox, over restarts and changes of the owner map. */
  lemma {:induction false} OneJobPerSandbox(config: Config, run: seq<Action>, at: Address, at': Address)
    requires Runs(Initial(config), run) && AssumedRun(Initial(config), run)
    requires at in After(Initial(config), run).server.jobs && at' in After(Initial(config), run).server.jobs
    requires at.1 == at'.1
    ensures at == at'
  {
    hide AssumedRun, Runs, After, Coherent, AtOneHome, Initial;
    var home := Reached(config, run);
    JobAtHome(After(Initial(config), run), home, at);
    JobAtHome(After(Initial(config), run), home, at');
  }

  /** Where the submits of a run arrived, in order. */
  function Arrivals(s: State, run: seq<Action>): seq<Address>
    requires Runs(s, run)
    decreases |run|
  {
    if run == [] then []
    else
      (match run[0]
       case SubmitLands(i) => [(s.instances[i].phase.queue, s.instances[i].id)]
       case LateLands(at) => [at]
       case _ => [])
      + Arrivals(Apply(s, run[0]), run[1..])
  }

  lemma {:induction false} JobsStay(s: State, a: Action)
    requires Enabled(s, a)
    ensures s.server.jobs.Keys <= Apply(s, a).server.jobs.Keys
    ensures a.SubmitLands? ==> (s.instances[a.i].phase.queue, s.instances[a.i].id) in Apply(s, a).server.jobs
    ensures a.LateLands? ==> a.at in Apply(s, a).server.jobs
  {
    if a.SubmitLands? {
      hide Submit;
      SubmitHolds(s.server, (s.instances[a.i].phase.queue, s.instances[a.i].id));
    } else if a.LateLands? {
      hide Submit;
      SubmitHolds(s.server, a.at);
    } else {
      hide Proceeding, Resolving, Settled, JobsOf, HasJob, LookoutSays, InFlight, Submit;
    }
  }

  lemma {:induction false} SubmitHolds(sv: Server, at: Address)
    ensures at in Submit(sv, at).jobs && sv.jobs.Keys <= Submit(sv, at).jobs.Keys
  {
  }

  lemma {:induction false} ArrivalsHold(s: State, run: seq<Action>)
    requires Runs(s, run)
    ensures s.server.jobs.Keys <= After(s, run).server.jobs.Keys
    ensures forall at :: at in Arrivals(s, run) ==> at in After(s, run).server.jobs
    decreases |run|
  {
    hide Enabled, Apply;
    if run != [] {
      JobsStay(s, run[0]);
      ArrivalsHold(Apply(s, run[0]), run[1..]);
    }
  }

  /** All submits for a sandbox, in the whole of a run, go to one queue. */
  lemma {:induction false} OneQueuePerSandbox(config: Config, run: seq<Action>, j: nat, k: nat)
    requires Runs(Initial(config), run) && AssumedRun(Initial(config), run)
    requires j < |Arrivals(Initial(config), run)| && k < |Arrivals(Initial(config), run)|
    requires Arrivals(Initial(config), run)[j].1 == Arrivals(Initial(config), run)[k].1
    ensures Arrivals(Initial(config), run)[j].0 == Arrivals(Initial(config), run)[k].0
  {
    hide *;
    var arrivals := Arrivals(Initial(config), run);
    ArrivalsHold(Initial(config), run);
    assert arrivals[j] in arrivals && arrivals[k] in arrivals;
    OneJobPerSandbox(config, run, arrivals[j], arrivals[k]);
  }

  /** Destroy hits the right queue. When its cancel arrives, every job the
      sandbox has is in the queue it names, and is cancelled; and that is still
      so whenever the call returns. */
  lemma {:induction false} DestroyHitsTheJob(config: Config, run: seq<Action>, i: nat)
    requires Runs(Initial(config), run) && AssumedRun(Initial(config), run)
    ensures var s := After(Initial(config), run);
            Enabled(s, CancelLands(i)) ==>
              var t := Apply(s, CancelLands(i));
              t.instances[i].phase.CancelAnswered?
              && t.instances[i].phase.seen == JobsOf(s.server, s.instances[i].id)
              && forall at :: at in t.instances[i].phase.seen ==>
                   at.0 == t.instances[i].phase.at && s.server.jobs[at] in t.server.cancelled
    ensures var s := After(Initial(config), run);
            Enabled(s, DestroyReturns(i)) ==>
              forall at :: at in s.instances[i].phase.seen ==>
                at.0 == s.instances[i].phase.at && at in s.server.jobs && s.server.jobs[at] in s.server.cancelled
  {
    hide Coherent, AtOneHome, Apply, JobsOf, Runs, AssumedRun, After, Initial;
    var s := After(Initial(config), run);
    var home := Reached(config, run);
    if Enabled(s, CancelLands(i)) {
      CancelHits(s, home, i);
    }
    if Enabled(s, DestroyReturns(i)) {
      PhaseAt(s, home, i);
    }
  }

  /** With one queue, the job an instance goes on holding is the same one. */
  lemma {:induction false} SameJobStays(s: State, a: Action, home: map<Id, Queue>, i: nat)
    requires Inv(s, home) && Enabled(s, a) && !a.Restart? && At(s, i) && s.instances[i].job.Some?
    ensures At(Apply(s, a), i) && Apply(s, a).instances[i].job == s.instances[i].job
  {
    hide AtOneHome, Coherent, Home, ChannelOk, PodOk, JobOk;
    HolderAsksNothing(s, i);
    if a == KnownHealthy(i) {
      InstanceAt(s, i);
      SameJob(s, home, s.instances[i].id, s.instances[i].phase.known.job, s.instances[i].job.value);
    } else {
      hide Apply, Enabled;
      JobUntouched(s, a, i);
    }
  }

  lemma {:induction false} SameJob(s: State, home: map<Id, Queue>, id: Id, a: SubmittedJob, b: SubmittedJob)
    requires AtOneHome(s, home) && JobOk(a, id, s.server) && JobOk(b, id, s.server)
    ensures a == b
  {
    hide AtOneHome, Home;
    JobAtHome(s, home, (a.queue, id));
    JobAtHome(s, home, (b.queue, id));
  }

  lemma {:induction false} HolderKeepsItsJob(s: State, run: seq<Action>, home: map<Id, Queue>, i: nat)
    requires Inv(s, home) && Runs(s, run) && AssumedRun(s, run) && At(s, i) && s.instances[i].job.Some?
    requires forall k :: 0 <= k < |run| ==> !run[k].Restart?
    ensures At(After(s, run), i) && After(s, run).instances[i].job == s.instances[i].job
    decreases |run|
  {
    hide Inv, Enabled, Assumed, Apply;
    if run != [] {
      SameJobStays(s, run[0], home, i);
      var home' := StepKeeps(s, run[0], home);
      HolderKeepsItsJob(Apply(s, run[0]), run[1..], home', i);
    }
  }
}
