/**
 * How far the one-queue assumption is needed: it excludes exactly the steps
 * after which something can go wrong, and weaker ones would not do.
 */
module PlacementLimits {
  import opened Common
  import opened Queues
  import opened Placement
  import opened PlacementCoherence
  import opened PlacementHome

  // ---- what can go wrong ----

  predicate Split(sv: Server, id: Id) {
    exists at, at' :: at in sv.jobs && at' in sv.jobs && at.1 == id && at'.1 == id && at != at'
  }

  /** A destroy was answered that had addressed another queue than that of a job
      the sandbox had. */
  predicate Missed(inst: Instance) {
    inst.phase.CancelAnswered? && exists at :: at in inst.phase.seen && at.0 != inst.phase.at
  }

  /** A sandbox has two jobs, or a destroy has missed one. */
  ghost predicate Wrong(s: State) {
    (exists id :: Split(s.server, id)) || exists i :: 0 <= i < |s.instances| && Missed(s.instances[i])
  }

  lemma {:induction false} NothingWrong(s: State, home: map<Id, Queue>)
    requires Inv(s, home)
    ensures !Wrong(s)
  {
    hide Coherent, AtOneHome, Home;
    forall id ensures !Split(s.server, id) {
      forall at, at' | at in s.server.jobs && at' in s.server.jobs && at.1 == id && at'.1 == id ensures at == at' {
        JobAtHome(s, home, at);
        JobAtHome(s, home, at');
      }
    }
    forall i | 0 <= i < |s.instances| ensures !Missed(s.instances[i]) {
      PhaseAt(s, home, i);
    }
  }

  // ---- ordinary continuations ----

  /** A lookup that finds no job settles where its owner maps. */
  lemma {:induction false} SettlesAtOwner(s: State, i: nat)
    requires At(s, i) && s.instances[i].phase.Looking? && !HasJob(s.server, s.instances[i].id)
    ensures var run, mine := [LookoutAnswers(i, None), Settles(i)], PlacesAt(s.config, s.instances[i].owner);
            Runs(s, run) && AssumedRun(s, run)
            && After(s, run) == With(s, i, s.instances[i].(phase := Resolved(s.instances[i].phase.purpose, mine)))
                                .(remembered := s.remembered[s.instances[i].id := mine])
  {
    hide HasJob, Runs, After, AssumedRun, PlacesAt;
    var s1 := Apply(s, LookoutAnswers(i, None));
    Pair(s, LookoutAnswers(i, None), Settles(i));
    assert Apply(s1, Settles(i)).instances ==
           s.instances[i := s.instances[i].(phase :=
             Resolved(s.instances[i].phase.purpose, PlacesAt(s.config, s.instances[i].owner)))];
  }

  /** Two submits for one sandbox that are on their way to different queues. */
  lemma {:induction false} BothLand(s: State, i: nat, j: nat)
    requires At(s, i) && At(s, j) && i != j && s.instances[i].id == s.instances[j].id
    requires s.instances[i].phase.Resolved? && s.instances[i].phase.purpose == ToSubmit
    requires s.instances[j].phase.Resolved? && s.instances[j].phase.purpose == ToSubmit
    requires s.instances[i].phase.queue != s.instances[j].phase.queue
    ensures var run := [SubmitLands(i), SubmitLands(j)];
            Runs(s, run) && AssumedRun(s, run) && Split(After(s, run).server, s.instances[i].id)
  {
    hide Split, Runs, After, AssumedRun;
    var id := s.instances[i].id;
    var s1 := Apply(s, SubmitLands(i));
    assert s1.instances[j] == s.instances[j];
    var s2 := Apply(s1, SubmitLands(j));
    JobsStay(s, SubmitLands(i));
    JobsStay(s1, SubmitLands(j));
    SplitBy(s2.server, id, s.instances[i].phase.queue, s.instances[j].phase.queue);
    Pair(s, SubmitLands(i), SubmitLands(j));
  }

  lemma {:induction false} SplitBy(sv: Server, id: Id, a: Queue, b: Queue)
    requires a != b && (a, id) in sv.jobs && (b, id) in sv.jobs
    ensures Split(sv, id)
  {
    assert (a, id) != (b, id);
  }

  /** A cancel that arrives after a submit elsewhere misses that job. */
  lemma {:induction false} CancelElsewhere(s: State, i: nat, j: nat)
    requires At(s, i) && At(s, j) && i != j && s.instances[i].id == s.instances[j].id
    requires !HasJob(s.server, s.instances[i].id)
    requires s.instances[i].phase.Resolved? && s.instances[i].phase.purpose == ToDestroy
    requires s.instances[j].phase.Resolved? && s.instances[j].phase.purpose == ToSubmit
    requires s.instances[i].phase.queue != s.instances[j].phase.queue
    ensures var run := [SubmitLands(j), CancelLands(i)];
            Runs(s, run) && AssumedRun(s, run)
            && At(After(s, run), i) && Missed(After(s, run).instances[i])
            && HasJob(After(s, run).server, s.instances[i].id)
            && After(s, run).server.cancelled == s.server.cancelled
  {
    hide Runs, After, AssumedRun;
    var id := s.instances[i].id;
    var s1 := Apply(s, SubmitLands(j));
    assert s1.instances[i] == s.instances[i];
    assert (s.instances[i].phase.queue, id) !in s1.server.jobs;
    assert (s.instances[j].phase.queue, id) in s1.server.jobs;
    assert (s.instances[j].phase.queue, id) in Apply(s1, CancelLands(i)).server.jobs;
    assert (s.instances[j].phase.queue, id) in Apply(s1, CancelLands(i)).instances[i].phase.seen;
    Pair(s, SubmitLands(j), CancelLands(i));
  }

  /** A new instance that needs no request to know its queue submits there. */
  function Submitting(id: Id, queue: Queue): Instance {
    Instance(id, None, false, None, None, None, Resolved(ToSubmit, queue))
  }

  lemma {:induction false} NewSubmit(s: State, id: Id, queue: Queue)
    requires id !in s.placements && Known(s.config, s.remembered, id) == Some(queue)
    ensures var run := [Create(id, None, false), StartReady(|s.instances|)];
            Runs(s, run) && AssumedRun(s, run)
            && After(s, run) == s.(instances := s.instances + [Submitting(id, queue)])
  {
    hide Known, Runs, After, AssumedRun, HasJob;
    var n := |s.instances|;
    var t := Apply(s, Create(id, None, false));
    var u := Apply(t, StartReady(n));
    assert t.instances[n] == Instance(id, None, false, None, None, None, Idle);
    assert u.instances == s.instances + [Submitting(id, queue)];
    Pair(s, Create(id, None, false), StartReady(n));
  }

  /** Without a job nothing is cached. */
  lemma {:induction false} NothingCached(s: State, id: Id)
    requires Coherent(s) && !HasJob(s.server, id)
    ensures id !in s.placements
  {
    hide Coherent, HasJob;
    if id in s.placements {
      CachedHasJob(s, id);
    }
  }

  lemma {:induction false} CachedHasJob(s: State, id: Id)
    requires Coherent(s) && id in s.placements
    ensures HasJob(s.server, id)
  {
    hide Coherent;
    CacheAt(s, id);
    assert (s.placements[id].job.queue, id) in s.server.jobs;
  }

  /** After a lookup that found no job has settled, the next call submits there. */
  lemma {:induction false} SettlesThenSubmits(s: State, i: nat) returns (run: seq<Action>)
    requires Coherent(s) && At(s, i) && s.instances[i].phase.Looking? && !HasJob(s.server, s.instances[i].id)
    ensures var id, mine := s.instances[i].id, PlacesAt(s.config, s.instances[i].owner);
            var settled := s.instances[i].(phase := Resolved(s.instances[i].phase.purpose, mine));
            Runs(s, run) && AssumedRun(s, run)
            && After(s, run) == s.(instances := s.instances[i := settled] + [Submitting(id, mine)],
                                   remembered := s.remembered[id := mine])
  {
    hide Coherent, HasJob, Runs, After, AssumedRun, PlacesAt, Apply, Enabled;
    var id := s.instances[i].id;
    var first := [LookoutAnswers(i, None), Settles(i)];
    NothingCached(s, id);
    SettlesAtOwner(s, i);
    var t := After(s, first);
    NewSubmit(t, id, PlacesAt(s.config, s.instances[i].owner));
    var second := [Create(id, None, false), StartReady(|t.instances|)];
    Append(s, first, second);
    run := first + second;
  }

  // ---- every rival can do harm ----

  lemma {:induction false} SplitIsWrong(s: State, id: Id)
    requires Split(s.server, id)
    ensures Wrong(s)
  {
  }

  /** A submit that is about to go elsewhere. */
  lemma {:induction false} SubmitRivalSplits(s: State, i: nat, j: nat) returns (run: seq<Action>)
    requires Coherent(s) && At(s, i) && At(s, j) && s.instances[i].id == s.instances[j].id
    requires s.instances[i].phase.Looking? && !HasJob(s.server, s.instances[i].id)
    requires s.instances[j].phase.Resolved? && s.instances[j].phase.purpose == ToSubmit
    requires s.instances[j].phase.queue != PlacesAt(s.config, s.instances[i].owner)
    ensures Runs(s, run) && AssumedRun(s, run) && Wrong(After(s, run))
  {
    hide Coherent, HasJob, Runs, After, AssumedRun, PlacesAt, Apply, Enabled, Split, Wrong;
    var first := SettlesThenSubmits(s, i);
    var t, n := After(s, first), |s.instances|;
    assert t.instances[j] == s.instances[j] && t.instances[n].phase.Resolved?;
    BothLand(t, n, j);
    var second := [SubmitLands(n), SubmitLands(j)];
    SplitIsWrong(After(t, second), s.instances[i].id);
    Append(s, first, second);
    run := first + second;
  }

  /** A submit that was given up on and is still on its way elsewhere. */
  lemma {:induction false} LateRivalSplits(s: State, i: nat, at: Address) returns (run: seq<Action>)
    requires Coherent(s) && At(s, i) && s.instances[i].phase.Looking? && !HasJob(s.server, s.instances[i].id)
    requires at in s.late && at.1 == s.instances[i].id && at.0 != PlacesAt(s.config, s.instances[i].owner)
    ensures Runs(s, run) && AssumedRun(s, run) && Wrong(After(s, run))
  {
    hide Coherent, HasJob, Runs, After, AssumedRun, PlacesAt, Apply, Enabled, Split, Wrong;
    var first := SettlesThenSubmits(s, i);
    var t, n := After(s, first), |s.instances|;
    LandsBesideLate(t, n, at);
    var second := [SubmitLands(n), LateLands(at)];
    SplitIsWrong(After(t, second), s.instances[i].id);
    Append(s, first, second);
    run := first + second;
  }

  lemma {:induction false} LandsBesideLate(s: State, i: nat, at: Address)
    requires At(s, i) && s.instances[i].phase.Resolved? && s.instances[i].phase.purpose == ToSubmit
    requires at in s.late && at.1 == s.instances[i].id && at.0 != s.instances[i].phase.queue
    ensures var run := [SubmitLands(i), LateLands(at)];
            Runs(s, run) && AssumedRun(s, run) && Split(After(s, run).server, s.instances[i].id)
  {
    hide Split, Runs, After, AssumedRun, Submit;
    var t := Apply(s, SubmitLands(i));
    JobsStay(s, SubmitLands(i));
    JobsStay(t, LateLands(at));
    SplitBy(Apply(t, LateLands(at)).server, s.instances[i].id, s.instances[i].phase.queue, at.0);
    Pair(s, SubmitLands(i), LateLands(at));
  }

  /** A destroy that is about to cancel elsewhere. */
  lemma {:induction false} DestroyRivalMisses(s: State, i: nat, j: nat) returns (run: seq<Action>)
    requires Coherent(s) && At(s, i) && At(s, j) && s.instances[i].id == s.instances[j].id
    requires s.instances[i].phase.Looking? && !HasJob(s.server, s.instances[i].id)
    requires s.instances[j].phase.Resolved? && s.instances[j].phase.purpose == ToDestroy
    requires s.instances[j].phase.queue != PlacesAt(s.config, s.instances[i].owner)
    ensures Runs(s, run) && AssumedRun(s, run) && Wrong(After(s, run))
  {
    hide Coherent, HasJob, Runs, After, AssumedRun, PlacesAt, Apply, Enabled, Missed;
    var first := SettlesThenSubmits(s, i);
    var t, n := After(s, first), |s.instances|;
    assert t.instances[j] == s.instances[j] && t.instances[n].phase.Resolved? && t.server == s.server;
    CancelElsewhere(t, j, n);
    var second := [SubmitLands(n), CancelLands(j)];
    assert Missed(After(t, second).instances[j]);
    Append(s, first, second);
    run := first + second;
  }

  /** Any other call that has yet to settle, whatever for: it settles elsewhere,
      and the next call submits there. */
  lemma {:induction false} UnsettledRivalSplits(s: State, i: nat, j: nat) returns (run: seq<Action>)
    requires Coherent(s) && At(s, i) && At(s, j) && i != j && s.instances[i].id == s.instances[j].id
    requires s.instances[i].phase.Looking? && !HasJob(s.server, s.instances[i].id)
    requires s.instances[j].phase.Looking? || s.instances[j].phase.Answered?
    requires HeadedFor(s.config, s.instances[j]) != Some(PlacesAt(s.config, s.instances[i].owner))
    ensures Runs(s, run) && AssumedRun(s, run) && Wrong(After(s, run))
  {
    hide HasJob, Runs, After, AssumedRun, PlacesAt, Wrong, InstancesOk, ServerOk, PlacementsOk, ListsOk, HoldsOk;
    InstanceAt(s, j);
    var id, theirs := s.instances[i].id, PlacesAt(s.config, s.instances[j].owner);
    var first := if s.instances[j].phase.Looking? then [LookoutAnswers(j, None), Settles(j)] else [Settles(j)];
    if s.instances[j].phase.Looking? {
      SettlesAtOwner(s, j);
    } else {
      NoAnswerWithoutJob(s, j);
      Last(s, Settles(j));
    }
    var t := After(s, first);
    assert t.remembered == s.remembered[id := theirs] && t.placements == s.placements && t.server == s.server;
    assert t.instances[i] == s.instances[i] && t.config == s.config && |t.instances| == |s.instances|;
    NothingCached(s, id);
    RunCoheres(s, first);
    hide Enabled, Apply, Coherent;
    NewSubmit(t, id, theirs);
    var second := [Create(id, None, false), StartReady(|t.instances|)];
    var u := After(t, second);
    RunCoheres(t, second);
    assert u.instances[i] == s.instances[i] && u.instances[|t.instances|] == Submitting(id, theirs);
    var third := SubmitRivalSplits(u, i, |t.instances|);
    Append(t, second, third);
    Append(s, first, second + third);
    run := first + (second + third);
  }

  lemma {:induction false} NoAnswerWithoutJob(s: State, j: nat)
    requires Coherent(s) && At(s, j) && s.instances[j].phase.Answered? && !HasJob(s.server, s.instances[j].id)
    ensures s.instances[j].phase.found == None
  {
    hide Coherent, HasJob;
    if s.instances[j].phase.found.Some? {
      AnsweredHasJob(s, j);
    }
  }

  lemma {:induction false} AnsweredHasJob(s: State, j: nat)
    requires Coherent(s) && At(s, j) && s.instances[j].phase.Answered? && s.instances[j].phase.found.Some?
    ensures HasJob(s.server, s.instances[j].id)
  {
    hide Coherent;
    InstanceAt(s, j);
    assert (s.instances[j].phase.found.value, s.instances[j].id) in s.server.jobs;
  }

  lemma {:induction false} AnyRivalHarms(s: State, i: nat) returns (run: seq<Action>)
    requires Coherent(s) && At(s, i) && s.instances[i].phase.Looking? && !HasJob(s.server, s.instances[i].id)
    requires !Unrivalled(s, i)
    ensures Runs(s, run) && AssumedRun(s, run) && Wrong(After(s, run))
  {
    hide Coherent, HasJob, Runs, After, AssumedRun, PlacesAt, Apply, Enabled, Wrong, Settled;
    var mine := PlacesAt(s.config, s.instances[i].owner);
    if at :| at in s.late && at.1 == s.instances[i].id && at.0 != mine {
      run := LateRivalSplits(s, i, at);
    } else {
      var j :| 0 <= j < |s.instances| && s.instances[j].id == s.instances[i].id
               && HeadedFor(s.config, s.instances[j]) !in {None, Some(mine)};
      if s.instances[j].phase.Resolved? {
        if s.instances[j].phase.purpose.ToSubmit? {
          run := SubmitRivalSplits(s, i, j);
        } else {
          run := DestroyRivalMisses(s, i, j);
        }
      } else {
        run := UnsettledRivalSplits(s, i, j);
      }
    }
  }

  /** A process without a map that takes over a sandbox that is elsewhere. */
  lemma {:induction false} TakeoverSplits(s: State, at: Address) returns (run: seq<Action>)
    requires !Mapped(s.config) && s.remembered == map[] && s.placements == map[]
    requires at in s.server.jobs.Keys + s.late && at.0 != Default(s.config)
    ensures Runs(s, run) && AssumedRun(s, run) && Wrong(After(s, run))
  {
    hide Runs, After, AssumedRun, Wrong, Mapped, Submit, Split;
    var first := [Create(at.1, None, false), StartReady(|s.instances|)];
    NewSubmit(s, at.1, Default(s.config));
    var t, n := After(s, first), |s.instances|;
    assert t.instances[n] == Submitting(at.1, Default(s.config));
    var second: seq<Action>;
    if at in s.server.jobs {
      second := [SubmitLands(n)];
      JobsStay(t, SubmitLands(n));
      Last(t, SubmitLands(n));
      SplitBy(After(t, second).server, at.1, at.0, Default(s.config));
    } else {
      second := [SubmitLands(n), LateLands(at)];
      LandsBesideLate(t, n, at);
    }
    SplitIsWrong(After(t, second), at.1);
    Append(s, first, second);
    run := first + second;
  }

  /** The assumption is the weakest that does. From a state in order, a step
      meets it if and only if nothing can go wrong after it: no assumed
      continuation makes a second job for a sandbox or a destroy that misses. */
  lemma {:induction false} AssumptionIsExact(s: State, a: Action, home: map<Id, Queue>)
    requires Inv(s, home) && Enabled(s, a)
    ensures Assumed(s, a) <==> forall run ::
              Runs(Apply(s, a), run) && AssumedRun(Apply(s, a), run) ==> !Wrong(After(Apply(s, a), run))
  {
    hide Inv, Runs, After, AssumedRun, Wrong, Unrivalled, HasJob, Mapped, Enabled, Apply;
    var t := Apply(s, a);
    if Assumed(s, a) {
      hide Assumed;
      var next := StepKeeps(s, a, home);
      forall run | Runs(t, run) && AssumedRun(t, run) ensures !Wrong(After(t, run)) {
        var last := RunKeeps(t, run, next);
        NothingWrong(After(t, run), last);
      }
    } else {
      var run := NotAssumedHarms(s, a, home);
    }
  }

  lemma {:induction false} NotAssumedHarms(s: State, a: Action, home: map<Id, Queue>) returns (run: seq<Action>)
    requires Inv(s, home) && Enabled(s, a) && !Assumed(s, a)
    ensures Runs(Apply(s, a), run) && AssumedRun(Apply(s, a), run) && Wrong(After(Apply(s, a), run))
  {
    hide AtOneHome, Coherent, Runs, After, AssumedRun, Wrong, Unrivalled, HasJob, Mapped, Known;
    var t := Apply(s, a);
    StepCoheres(s, a);
    if a.Restart? {
      var at :| at in s.server.jobs.Keys + s.late + a.sent && at.0 != Default(a.config);
      run := TakeoverSplits(t, at);
    } else {
      assert t.server == s.server && t.instances[a.i].id == s.instances[a.i].id;
      run := AnyRivalHarms(t, a.i);
    }
  }

  // ---- one lookup at a time is not enough ----

  /** At most one lookup of each sandbox is in flight. */
  predicate Alone(s: State) {
    forall i, j :: 0 <= i < j < |s.instances| && s.instances[i].id == s.instances[j].id ==>
      !(s.instances[i].phase.Looking? || s.instances[i].phase.Answered?)
      || !(s.instances[j].phase.Looking? || s.instances[j].phase.Answered?)
  }

  /** The run leads from s to t with never two lookups of a sandbox at once. */
  predicate LeadsAlone(s: State, run: seq<Action>, t: State)
    decreases |run|
  {
    if run == [] then s == t
    else Alone(s) && Enabled(s, run[0]) && LeadsAlone(Apply(s, run[0]), run[1..], t)
  }

  lemma {:induction false} LeadsThere(s: State, run: seq<Action>, t: State)
    requires LeadsAlone(s, run, t)
    ensures Runs(s, run) && After(s, run) == t
    decreases |run|
  {
    hide Enabled, Apply, Alone;
    if run != [] {
      LeadsThere(Apply(s, run[0]), run[1..], t);
    }
  }

  lemma {:induction false} ThreeSteps(s: State, a: Action, b: Action, c: Action)
    requires Alone(s) && Enabled(s, a)
    requires Alone(Apply(s, a)) && Enabled(Apply(s, a), b)
    requires Alone(Apply(Apply(s, a), b)) && Enabled(Apply(Apply(s, a), b), c)
    ensures LeadsAlone(s, [a, b, c], Apply(Apply(Apply(s, a), b), c))
  {
    hide Enabled, Apply, Alone;
    var s1 := Apply(s, a);
    var s2 := Apply(s1, b);
    assert [c][1..] == [] && LeadsAlone(s2, [c], Apply(s2, c));
    assert [b, c][1..] == [c] && LeadsAlone(s1, [b, c], Apply(s2, c));
    assert [a, b, c][1..] == [b, c];
  }

  /** Three instances of one sandbox, nothing remembered or cached. */
  function Three(config: Config, a: Instance, b: Instance, c: Instance, remembered: map<Id, Queue>, sv: Server): State {
    State(config, [a, b, c], remembered, map[], {}, {}, sv)
  }

  lemma {:induction false} ThreeCreated(config: Config, u: Owner, id: Id)
    ensures var a, b := Instance(id, Some(u), false, None, None, None, Idle), Instance(id, None, false, None, None, None, Idle);
            LeadsAlone(Initial(config), [Create(id, Some(u), false), Create(id, None, false), Create(id, None, false)],
                       Three(config, a, b, b, map[], Initial(config).server))
  {
    hide LeadsAlone;
    var owned, byId, s := Create(id, Some(u), false), Create(id, None, false), Initial(config);
    var a, b := Instance(id, Some(u), false, None, None, None, Idle), Instance(id, None, false, None, None, None, Idle);
    ThreeSteps(s, owned, byId, byId);
    assert Apply(Apply(Apply(s, owned), byId), byId) == Three(config, a, b, b, map[], s.server);
  }

  /** A create by its owner settles, with two calls by id alone to come. */
  lemma {:induction false} OwnerSettles(config: Config, u: Owner, id: Id)
    requires Mapped(config)
    ensures var a, b := Instance(id, Some(u), false, None, None, None, Idle), Instance(id, None, false, None, None, None, Idle);
            var q, server := ForOwner(config, u), Initial(config).server;
            LeadsAlone(Three(config, a, b, b, map[], server), [StartReady(0), LookoutAnswers(0, None), Settles(0)],
                       Three(config, a.(phase := Resolved(ToSubmit, q)), b, b, map[id := q], server))
  {
    hide Mapped, LeadsAlone, HasJob, ForOwner;
    var a, b := Instance(id, Some(u), false, None, None, None, Idle), Instance(id, None, false, None, None, None, Idle);
    var server := Initial(config).server;
    var s := Three(config, a, b, b, map[], server);
    NoJobs(server, id);
    assert Apply(s, StartReady(0)) == Three(config, a.(phase := Looking(ToSubmit)), b, b, map[], server);
    assert Apply(Apply(s, StartReady(0)), LookoutAnswers(0, None))
        == Three(config, a.(phase := Answered(ToSubmit, None)), b, b, map[], server);
    var t := Apply(Apply(Apply(s, StartReady(0)), LookoutAnswers(0, None)), Settles(0));
    assert t.remembered == map[id := ForOwner(config, u)];
    assert t.instances == [a.(phase := Resolved(ToSubmit, ForOwner(config, u))), b, b];
    ThreeSteps(s, StartReady(0), LookoutAnswers(0, None), Settles(0));
  }

  /** Before the submit of that create arrives, a destroy by id alone comes and
      goes. */
  lemma {:induction false} DestroyForgets(config: Config, a: Instance, b: Instance, q: Queue, server: Server) returns (t: State)
    requires b == Instance(a.id, None, false, None, None, None, Idle) && a.phase == Resolved(ToSubmit, q)
    requires Mapped(config) && server == Initial(config).server
    ensures LeadsAlone(Three(config, a, b, b, map[a.id := q], server), [StartDestroy(1), CancelLands(1), DestroyReturns(1)], t)
    ensures t == Three(config, a, b, b, map[], server)
  {
    hide LeadsAlone, HasJob, ForOwner, JobsOf;
    var s := Three(config, a, b, b, map[a.id := q], server);
    DestroyStarts(s);
    DestroyCancels(Apply(s, StartDestroy(1)));
    t := Apply(Apply(Apply(s, StartDestroy(1)), CancelLands(1)), DestroyReturns(1));
    assert t.instances == [a, b, b] && t.remembered == map[] && t.placements == map[];
    ThreeSteps(s, StartDestroy(1), CancelLands(1), DestroyReturns(1));
  }

  lemma {:induction false} DestroyStarts(s: State)
    requires Mapped(s.config) && |s.instances| == 3 && s.instances[1].phase.Idle? && s.instances[1].job == None
    requires s.instances[1].id in s.remembered
    ensures Enabled(s, StartDestroy(1))
    ensures Apply(s, StartDestroy(1))
         == With(s, 1, s.instances[1].(phase := Resolved(ToDestroy, s.remembered[s.instances[1].id])))
  {
    hide Mapped;
  }

  lemma {:induction false} DestroyCancels(s: State)
    requires |s.instances| == 3 && s.instances[1].phase.Resolved? && s.instances[1].phase.purpose.ToDestroy?
    requires (s.instances[1].phase.queue, s.instances[1].id) !in s.server.jobs
    ensures Enabled(s, CancelLands(1))
    ensures Apply(s, CancelLands(1))
         == With(s, 1, s.instances[1].(phase := CancelAnswered(s.instances[1].phase.queue, JobsOf(s.server, s.instances[1].id))))
  {
    hide JobsOf;
    assert s.server.cancelled + {} == s.server.cancelled;
  }

  lemma {:induction false} SettledThenForgotten(config: Config, u: Owner, id: Id)
    returns (run: seq<Action>, t: State)
    requires Mapped(config)
    ensures LeadsAlone(Initial(config), run, t)
    ensures var a, b := Instance(id, Some(u), false, None, None, None, Resolved(ToSubmit, ForOwner(config, u))),
                        Instance(id, None, false, None, None, None, Idle);
            t == Three(config, a, b, b, map[], Initial(config).server)
  {
    hide Mapped, LeadsAlone, ForOwner, Initial, Three;
    var a, b := Instance(id, Some(u), false, None, None, None, Idle), Instance(id, None, false, None, None, None, Idle);
    var q, server := ForOwner(config, u), Initial(config).server;
    var settled := a.(phase := Resolved(ToSubmit, q));
    ThreeCreated(config, u, id);
    OwnerSettles(config, u, id);
    t := DestroyForgets(config, settled, b, q, server);
    var creates := [Create(id, Some(u), false), Create(id, None, false), Create(id, None, false)];
    var settles := [StartReady(0), LookoutAnswers(0, None), Settles(0)];
    Joined(Initial(config), creates, Three(config, a, b, b, map[], server), settles,
           Three(config, settled, b, b, map[id := q], server));
    Joined(Initial(config), creates + settles, Three(config, settled, b, b, map[id := q], server),
           [StartDestroy(1), CancelLands(1), DestroyReturns(1)], t);
    run := creates + settles + [StartDestroy(1), CancelLands(1), DestroyReturns(1)];
  }

  lemma {:induction false} NoJobs(sv: Server, id: Id)
    requires sv.jobs == map[]
    ensures !HasJob(sv, id)
  {
  }

  /** The second half: the next call asks again, and settles elsewhere. */
  lemma {:induction false} AskedAgain(config: Config, a: Instance, b: Instance)
    requires b == Instance(a.id, None, false, None, None, None, Idle) && a.phase.Resolved? && Mapped(config)
    ensures var server := Initial(config).server;
            LeadsAlone(Three(config, a, b, b, map[], server), [StartReady(2), LookoutAnswers(2, None), Settles(2)],
                       Three(config, a, b, b.(phase := Resolved(ToSubmit, Default(config))), map[a.id := Default(config)], server))
  {
    hide Mapped, LeadsAlone, HasJob;
    var server := Initial(config).server;
    var s := Three(config, a, b, b, map[], server);
    NoJobs(server, a.id);
    assert Apply(s, StartReady(2)) == Three(config, a, b, b.(phase := Looking(ToSubmit)), map[], server);
    assert Apply(Apply(s, StartReady(2)), LookoutAnswers(2, None))
        == Three(config, a, b, b.(phase := Answered(ToSubmit, None)), map[], server);
    var t := Apply(Apply(Apply(s, StartReady(2)), LookoutAnswers(2, None)), Settles(2));
    assert t.remembered == map[a.id := Default(config)];
    assert t.instances == [a, b, b.(phase := Resolved(ToSubmit, Default(config)))];
    ThreeSteps(s, StartReady(2), LookoutAnswers(2, None), Settles(2));
  }

  lemma {:induction false} Joined(s: State, run: seq<Action>, t: State, more: seq<Action>, u: State)
    requires LeadsAlone(s, run, t) && LeadsAlone(t, more, u)
    ensures LeadsAlone(s, run + more, u)
    decreases |run|
  {
    hide Enabled, Apply, Alone;
    if run == [] {
      assert run + more == more;
    } else {
      Joined(Apply(s, run[0]), run[1..], t, more, u);
      assert (run + more)[1..] == run[1..] + more;
    }
  }

  lemma {:induction false} LandAlone(s: State)
    requires |s.instances| == 3 && s.instances[0].id == s.instances[2].id && s.instances[1].phase.Idle?
    requires s.instances[0].phase.Resolved? && s.instances[0].phase.purpose == ToSubmit
    requires s.instances[2].phase.Resolved? && s.instances[2].phase.purpose == ToSubmit
    ensures var run := [SubmitLands(0), SubmitLands(2)];
            Runs(s, run) && LeadsAlone(s, run, After(s, run))
  {
    hide Submit, Runs, After;
    var run := [SubmitLands(0), SubmitLands(2)];
    assert Apply(s, run[0]).instances[2] == s.instances[2];
    Pair(s, run[0], run[1]);
    assert run[1..] == [run[1]] && [run[1]][1..] == [];
  }

  /** That no two lookups of a sandbox are in flight at once is not enough for
      one queue: a destroy forgets the queue of a submit still on its way, and
      the next call asks again. Every owner map allows it. */
  lemma {:induction false} ForgettingRace(config: Config, u: Owner, id: Id)
    returns (run: seq<Action>, t: State)
    requires Mapped(config) && ForOwner(config, u) != Default(config)
    ensures LeadsAlone(Initial(config), run, t) && Split(t.server, id)
    ensures Runs(Initial(config), run) && After(Initial(config), run) == t
  {
    hide Mapped, LeadsAlone, HasJob, Split, ForOwner, Runs, After, Initial;
    var a, b := Instance(id, Some(u), false, None, None, None, Resolved(ToSubmit, ForOwner(config, u))),
                Instance(id, None, false, None, None, None, Idle);
    var server, default := Initial(config).server, Default(config);
    var forgotten: State;
    run, forgotten := SettledThenForgotten(config, u, id);
    var asked := Three(config, a, b, b.(phase := Resolved(ToSubmit, default)), map[id := default], server);
    AskedAgain(config, a, b);
    var again, landing := [StartReady(2), LookoutAnswers(2, None), Settles(2)], [SubmitLands(0), SubmitLands(2)];
    BothLand(asked, 0, 2);
    LandAlone(asked);
    t := After(asked, landing);
    Joined(Initial(config), run, forgotten, again, asked);
    Joined(Initial(config), run + again, asked, landing, t);
    run := run + again + landing;
    LeadsThere(Initial(config), run, t);
  }
}
