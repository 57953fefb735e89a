/**
 * The slots of the agent's bounded reads. A request takes a slot without
 * waiting or is refused; its read runs aside, in steps of its own, so it may
 * outlive the request that asked for it; only the end of the read gives the
 * slot back.
 */
module ReadSlots {
  import opened Common

  type Fd = nat

  const CAP: nat := 64

  /** Where the goroutine of a read is: on the walk with one descriptor, or two
      between an openat and the close of its directory; reading the opened file;
      and through its deferred steps. */
  datatype Stage =
    | Starting
    | Walking(fd: Fd)
    | Between(fd: Fd, next: Option<Fd>)
    | Reading(fd: Fd)
    | Closing(fd: Fd)
    | Ending
    | Posted
    | Finished

  datatype Answer = Waiting | FromRead | GaveUp

  datatype Read = Read(stage: Stage, answer: Answer)

  /** `slots` is how full the channel is, `open` the agent's descriptors for
      bounded reads, `released` the reads that emptied a slot, in order. */
  datatype State = State(slots: nat, readers: seq<Read>, open: set<Fd>, released: seq<nat>)

  datatype Action =
    | Arrive
    | OpenRoot(i: nat, fd: Fd)
    | OpenNext(i: nat, fd: Fd)
    | OpenFails(i: nat)
    | CloseDirectory(i: nat)
    | WalkEnds(i: nat)
    | ReadEnds(i: nat)
    | CloseFile(i: nat)
    | Post(i: nat)
    | Release(i: nat)
    | AnswerWithRead(i: nat)
    | AnswerWithout(i: nat)

  function Initial(): State { State(0, [], {}, []) }

  predicate At(s: State, i: nat) { i < |s.readers| }

  predicate Enabled(s: State, a: Action) {
    match a
    case Arrive => true
    case OpenRoot(i, fd) => At(s, i) && s.readers[i].stage.Starting? && fd !in s.open
    case OpenNext(i, fd) => At(s, i) && s.readers[i].stage.Walking? && fd !in s.open
    case OpenFails(i) => At(s, i) && (s.readers[i].stage.Starting? || s.readers[i].stage.Walking?)
    case CloseDirectory(i) => At(s, i) && s.readers[i].stage.Between?
    case WalkEnds(i) => At(s, i) && s.readers[i].stage.Walking?
    case ReadEnds(i) => At(s, i) && s.readers[i].stage.Reading?
    case CloseFile(i) => At(s, i) && s.readers[i].stage.Closing?
    case Post(i) => At(s, i) && s.readers[i].stage.Ending?
    case Release(i) => At(s, i) && s.readers[i].stage.Posted? && s.slots > 0
    case AnswerWithRead(i) => At(s, i) && s.readers[i].answer.Waiting? && (s.readers[i].stage.Posted? || s.readers[i].stage.Finished?)
    case AnswerWithout(i) => At(s, i) && s.readers[i].answer.Waiting?
  }

  function To(s: State, i: nat, stage: Stage): State
    requires At(s, i)
  {
    s.(readers := s.readers[i := s.readers[i].(stage := stage)])
  }

  function Apply(s: State, a: Action): State
    requires Enabled(s, a)
  {
    match a
    case Arrive => if s.slots < CAP then s.(slots := s.slots + 1, readers := s.readers + [Read(Starting, Waiting)]) else s
    case OpenRoot(i, fd) => To(s, i, Walking(fd)).(open := s.open + {fd})
    case OpenNext(i, fd) => To(s, i, Between(s.readers[i].stage.fd, Some(fd))).(open := s.open + {fd})
    case OpenFails(i) =>
      if s.readers[i].stage.Starting? then To(s, i, Ending) else To(s, i, Between(s.readers[i].stage.fd, None))
    case CloseDirectory(i) =>
      To(s, i, match s.readers[i].stage.next case Some(fd) => Walking(fd) case None => Ending)
        .(open := s.open - {s.readers[i].stage.fd})
    case WalkEnds(i) => To(s, i, Reading(s.readers[i].stage.fd))
    case ReadEnds(i) => To(s, i, Closing(s.readers[i].stage.fd))
    case CloseFile(i) => To(s, i, Ending).(open := s.open - {s.readers[i].stage.fd})
    case Post(i) => To(s, i, Posted)
    case Release(i) => To(s, i, Finished).(slots := s.slots - 1, released := s.released + [i])
    case AnswerWithRead(i) => s.(readers := s.readers[i := s.readers[i].(answer := FromRead)])
    case AnswerWithout(i) => s.(readers := s.readers[i := s.readers[i].(answer := GaveUp)])
  }

  predicate Runs(s: State, run: seq<Action>)
    decreases |run|
  {
    run == [] || (Enabled(s, run[0]) && Runs(Apply(s, run[0]), run[1..]))
  }

  function After(s: State, run: seq<Action>): State
    requires Runs(s, run)
    decreases |run|
  {
    if run == [] then s else After(Apply(s, run[0]), run[1..])
  }

  // ---- what is conserved ----

  function Held(stage: Stage): (fds: set<Fd>)
    ensures |fds| <= 2 && (stage.Finished? ==> fds == {})
  {
    match stage
    case Walking(fd) => {fd}
    case Between(fd, next) => if next.Some? then {fd, next.value} else {fd}
    case Reading(fd) => {fd}
    case Closing(fd) => {fd}
    case _ => {}
  }

  /** Reads admitted and not yet finished, whatever their requests were told. */
  function Unfinished(readers: seq<Read>): nat {
    if readers == [] then 0
    else Unfinished(readers[..|readers| - 1]) + (if readers[|readers| - 1].stage.Finished? then 0 else 1)
  }

  function Descriptors(readers: seq<Read>): nat {
    if readers == [] then 0 else Descriptors(readers[..|readers| - 1]) + |Held(readers[|readers| - 1].stage)|
  }

  function Releases(released: seq<nat>, i: nat): nat {
    if released == [] then 0
    else Releases(released[..|released| - 1], i) + (if released[|released| - 1] == i then 1 else 0)
  }

  predicate HeldOpen(readers: seq<Read>, open: set<Fd>) {
    && (forall i, fd :: 0 <= i < |readers| && fd in Held(readers[i].stage) ==> fd in open)
    && (forall fd :: fd in open ==> exists i :: 0 <= i < |readers| && fd in Held(readers[i].stage))
  }

  predicate Distinct(readers: seq<Read>) {
    && (forall i, j :: 0 <= i < j < |readers| ==> Held(readers[i].stage) !! Held(readers[j].stage))
    && (forall i :: 0 <= i < |readers| && readers[i].stage.Between? && readers[i].stage.next.Some? ==>
          readers[i].stage.next.value != readers[i].stage.fd)
  }

  ghost predicate ReleasedOnce(readers: seq<Read>, released: seq<nat>) {
    && (forall i :: 0 <= i < |readers| ==> Releases(released, i) == if readers[i].stage.Finished? then 1 else 0)
    && (forall i :: |readers| <= i ==> Releases(released, i) == 0)
  }

  ghost predicate Inv(s: State) {
    && s.slots == Unfinished(s.readers) <= CAP
    && HeldOpen(s.readers, s.open)
    && Distinct(s.readers)
    && |s.open| == Descriptors(s.readers)
    && ReleasedOnce(s.readers, s.released)
  }

  // ---- counting ----

  lemma {:induction false} UnfinishedUpdate(readers: seq<Read>, i: nat, r: Read)
    requires i < |readers|
    ensures Unfinished(readers[i := r]) + (if readers[i].stage.Finished? then 0 else 1)
            == Unfinished(readers) + (if r.stage.Finished? then 0 else 1)
  {
    var last := |readers| - 1;
    if i < last {
      UnfinishedUpdate(readers[..last], i, r);
      assert readers[i := r][..last] == readers[..last][i := r];
    } else {
      assert readers[i := r][..last] == readers[..last];
    }
  }

  lemma {:induction false} DescriptorsUpdate(readers: seq<Read>, i: nat, r: Read)
    requires i < |readers|
    ensures Descriptors(readers[i := r]) + |Held(readers[i].stage)| == Descriptors(readers) + |Held(r.stage)|
  {
    hide Held;
    var last := |readers| - 1;
    if i < last {
      DescriptorsUpdate(readers[..last], i, r);
      assert readers[i := r][..last] == readers[..last][i := r];
    } else {
      assert readers[i := r][..last] == readers[..last];
    }
  }

  lemma {:induction false} DescriptorsBound(readers: seq<Read>)
    ensures Descriptors(readers) <= 2 * Unfinished(readers)
  {
    hide Held;
    if readers != [] {
      DescriptorsBound(readers[..|readers| - 1]);
    }
  }

  lemma {:induction false} SomeUnfinished(readers: seq<Read>, i: nat)
    requires i < |readers| && !readers[i].stage.Finished?
    ensures Unfinished(readers) > 0
  {
    if i < |readers| - 1 {
      SomeUnfinished(readers[..|readers| - 1], i);
    }
  }

  // ---- every step ----

  /** A step of one read that neither opens nor closes, nor ends it. */
  lemma {:induction false} QuietStep(s: State, i: nat, r: Read)
    requires Inv(s) && At(s, i) && Held(r.stage) == Held(s.readers[i].stage)
    requires r.stage.Finished? == s.readers[i].stage.Finished?
    requires r.stage.Between? && r.stage.next.Some? ==> r.stage == s.readers[i].stage
    ensures Inv(s.(readers := s.readers[i := r]))
  {
    hide Held, Unfinished, Descriptors, Releases;
    UnfinishedUpdate(s.readers, i, r);
    DescriptorsUpdate(s.readers, i, r);
    var readers := s.readers[i := r];
    assert forall j :: 0 <= j < |readers| ==> Held(readers[j].stage) == Held(s.readers[j].stage);
    SameHeld(s.readers, readers, s.open);
  }

  lemma {:induction false} SameHeld(a: seq<Read>, b: seq<Read>, open: set<Fd>)
    requires |a| == |b| && forall j :: 0 <= j < |a| ==> Held(a[j].stage) == Held(b[j].stage)
    requires HeldOpen(a, open)
    ensures HeldOpen(b, open)
  {
    hide Held;
    forall fd | fd in open ensures exists i :: 0 <= i < |b| && fd in Held(b[i].stage) {
      var i :| 0 <= i < |a| && fd in Held(a[i].stage);
      assert fd in Held(b[i].stage);
    }
  }

  lemma {:induction false} OpenStep(s: State, i: nat, r: Read, fd: Fd)
    requires Inv(s) && At(s, i) && fd !in s.open && !r.stage.Finished? && !s.readers[i].stage.Finished?
    requires Held(r.stage) == Held(s.readers[i].stage) + {fd}
    requires r.stage.Between? && r.stage.next.Some? ==> r.stage.next.value != r.stage.fd
    ensures Inv(s.(readers := s.readers[i := r], open := s.open + {fd}))
  {
    hide Held, Unfinished, Descriptors, Releases, HeldOpen, Distinct;
    UnfinishedUpdate(s.readers, i, r);
    DescriptorsUpdate(s.readers, i, r);
    OpenHeld(s.readers, s.open, i, r, fd);
  }

  lemma {:induction false} OpenHeld(readers: seq<Read>, open: set<Fd>, i: nat, r: Read, fd: Fd)
    requires HeldOpen(readers, open) && Distinct(readers) && i < |readers| && fd !in open
    requires Held(r.stage) == Held(readers[i].stage) + {fd}
    requires r.stage.Between? && r.stage.next.Some? ==> r.stage.next.value != r.stage.fd
    ensures HeldOpen(readers[i := r], open + {fd}) && Distinct(readers[i := r])
    ensures |Held(r.stage)| == |Held(readers[i].stage)| + 1
  {
    hide Held;
    assert fd !in Held(readers[i].stage);
    OpenDistinct(readers, open, i, r, fd);
    OpenOpen(readers, open, i, r, fd);
  }

  lemma {:induction false} OpenOpen(readers: seq<Read>, open: set<Fd>, i: nat, r: Read, fd: Fd)
    requires HeldOpen(readers, open) && i < |readers|
    requires Held(r.stage) == Held(readers[i].stage) + {fd}
    ensures HeldOpen(readers[i := r], open + {fd})
  {
    hide Held;
    var readers' := readers[i := r];
    forall f | f in open + {fd} ensures exists j :: 0 <= j < |readers'| && f in Held(readers'[j].stage) {
      if f == fd {
        assert f in Held(readers'[i].stage);
      } else {
        var j :| 0 <= j < |readers| && f in Held(readers[j].stage);
        assert f in Held(readers'[j].stage);
      }
    }
  }

  lemma {:induction false} OpenDistinct(readers: seq<Read>, open: set<Fd>, i: nat, r: Read, fd: Fd)
    requires HeldOpen(readers, open) && Distinct(readers) && i < |readers| && fd !in open
    requires Held(r.stage) == Held(readers[i].stage) + {fd}
    requires r.stage.Between? && r.stage.next.Some? ==> r.stage.next.value != r.stage.fd
    ensures Distinct(readers[i := r])
  {
    hide Held;
    var readers' := readers[i := r];
    forall j, k | 0 <= j < k < |readers'| ensures Held(readers'[j].stage) !! Held(readers'[k].stage) {
      assert Held(readers[j].stage) !! Held(readers[k].stage);
      if j == i {
        AddApart(Held(readers[i].stage), Held(readers[k].stage), fd);
      } else if k == i {
        AddApart(Held(readers[i].stage), Held(readers[j].stage), fd);
      }
    }
  }

  lemma {:induction false} AddApart(a: set<Fd>, b: set<Fd>, fd: Fd)
    requires a !! b && fd !in b
    ensures a + {fd} !! b
  {
  }

  lemma {:induction false} CloseStep(s: State, i: nat, r: Read, fd: Fd)
    requires Inv(s) && At(s, i) && fd in Held(s.readers[i].stage) && !r.stage.Finished? && !s.readers[i].stage.Finished?
    requires Held(r.stage) == Held(s.readers[i].stage) - {fd} && !r.stage.Between?
    ensures Inv(s.(readers := s.readers[i := r], open := s.open - {fd}))
  {
    hide Held, Unfinished, Descriptors, Releases;
    UnfinishedUpdate(s.readers, i, r);
    DescriptorsUpdate(s.readers, i, r);
    var readers := s.readers[i := r];
    assert forall j :: 0 <= j < |readers| && j != i ==> readers[j] == s.readers[j];
    assert |Held(s.readers[i].stage) - {fd}| == |Held(s.readers[i].stage)| - 1;
    forall f | f in s.open - {fd} ensures exists j :: 0 <= j < |readers| && f in Held(readers[j].stage) {
      var j :| 0 <= j < |s.readers| && f in Held(s.readers[j].stage);
      assert f in Held(readers[j].stage);
    }
    forall j, f | 0 <= j < |readers| && f in Held(readers[j].stage) ensures f in s.open - {fd} {
      assert f in Held(s.readers[j].stage);
      if j < i { assert Held(s.readers[j].stage) !! Held(s.readers[i].stage); }
      if i < j { assert Held(s.readers[i].stage) !! Held(s.readers[j].stage); }
    }
  }

  lemma {:induction false} ReleaseStep(s: State, i: nat)
    requires Inv(s) && Enabled(s, Release(i))
    ensures Inv(Apply(s, Release(i)))
  {
    hide Unfinished, Descriptors, Releases, Held;
    var r := s.readers[i].(stage := Finished);
    var readers, released := s.readers[i := r], s.released + [i];
    UnfinishedUpdate(s.readers, i, r);
    DescriptorsUpdate(s.readers, i, r);
    assert Held(Posted) == {} && Held(Finished) == {} by { NothingHeld(); }
    SameHeld(s.readers, readers, s.open);
    forall j ensures Releases(released, j) == Releases(s.released, j) + (if i == j then 1 else 0) {
      ReleasesSnoc(s.released, i, j);
    }
  }

  lemma {:induction false} NothingHeld()
    ensures Held(Posted) == {} && Held(Finished) == {}
  {
  }

  lemma {:induction false} ReleasesSnoc(released: seq<nat>, i: nat, j: nat)
    ensures Releases(released + [i], j) == Releases(released, j) + (if i == j then 1 else 0)
  {
    assert (released + [i])[..|released|] == released;
  }

  lemma {:induction false} ArriveStep(s: State)
    requires Inv(s)
    ensures Inv(Apply(s, Arrive))
  {
    hide Releases, Held;
    if s.slots < CAP {
      var readers := s.readers + [Read(Starting, Waiting)];
      assert readers[..|s.readers|] == s.readers;
      assert Held(Starting) == {} by { StartingHolds(); }
      forall fd | fd in s.open ensures exists i :: 0 <= i < |readers| && fd in Held(readers[i].stage) {
        var i :| 0 <= i < |s.readers| && fd in Held(s.readers[i].stage);
        assert fd in Held(readers[i].stage);
      }
    }
  }

  lemma {:induction false} StartingHolds()
    ensures Held(Starting) == {}
  {
  }

  lemma {:induction false} StepKeeps(s: State, a: Action)
    requires Inv(s) && Enabled(s, a)
    ensures Inv(Apply(s, a))
  {
    match a
    case Arrive =>
      hide *;
      ArriveStep(s);
    case Release(i) =>
      hide *;
      ReleaseStep(s, i);
    case OpenRoot(_, _) | OpenNext(_, _) =>
      hide *;
      OpeningKeeps(s, a);
    case CloseDirectory(_) | CloseFile(_) =>
      hide *;
      ClosingKeeps(s, a);
    case _ =>
      hide *;
      QuietKeeps(s, a);
  }

  lemma {:induction false} OpeningKeeps(s: State, a: Action)
    requires Inv(s) && Enabled(s, a) && (a.OpenRoot? || a.OpenNext?)
    ensures Inv(Apply(s, a))
  {
    hide Inv;
    if a.OpenNext? {
      WalkingOpen(s, a.i);
    }
    OpenStep(s, a.i, Apply(s, a).readers[a.i], a.fd);
  }

  lemma {:induction false} ClosingKeeps(s: State, a: Action)
    requires Inv(s) && Enabled(s, a) && (a.CloseDirectory? || a.CloseFile?)
    ensures Inv(Apply(s, a))
  {
    hide Inv;
    if a.CloseDirectory? && s.readers[a.i].stage.next.Some? {
      BetweenApart(s, a.i);
    }
    CloseStep(s, a.i, Apply(s, a).readers[a.i], s.readers[a.i].stage.fd);
  }

  lemma {:induction false} QuietKeeps(s: State, a: Action)
    requires Inv(s) && Enabled(s, a)
    requires !a.Arrive? && !a.Release? && !a.OpenRoot? && !a.OpenNext? && !a.CloseDirectory? && !a.CloseFile?
    ensures Inv(Apply(s, a))
  {
    hide Inv;
    QuietStep(s, a.i, Apply(s, a).readers[a.i]);
  }

  lemma {:induction false} WalkingOpen(s: State, i: nat)
    requires Inv(s) && At(s, i) && s.readers[i].stage.Walking?
    ensures s.readers[i].stage.fd in s.open
  {
    hide Unfinished, Descriptors, Releases;
    assert s.readers[i].stage.fd in Held(s.readers[i].stage);
  }

  lemma {:induction false} BetweenApart(s: State, i: nat)
    requires Inv(s) && At(s, i) && s.readers[i].stage.Between? && s.readers[i].stage.next.Some?
    ensures s.readers[i].stage.next.value != s.readers[i].stage.fd
  {
  }

  // ---- every run ----

  lemma {:induction false} RunKeeps(s: State, run: seq<Action>)
    requires Inv(s) && Runs(s, run)
    ensures Inv(After(s, run))
    decreases |run|
  {
    hide Inv, Enabled, Apply;
    if run != [] {
      StepKeeps(s, run[0]);
      RunKeeps(Apply(s, run[0]), run[1..]);
    }
  }

  /** In every run the occupied slots are the admitted reads not yet finished,
      those whose request was answered long ago included, and never more than
      the cap; a slot was given back once for each finished read and for no
      other; the descriptors open are exactly those the running reads hold, at
      most two each and none for a finished one. */
  lemma {:induction false} SlotsAndDescriptors(run: seq<Action>)
    requires Runs(Initial(), run)
    ensures var s := After(Initial(), run);
            && s.slots == Unfinished(s.readers) <= CAP
            && |s.released| + s.slots == |s.readers|
            && (forall i :: 0 <= i < |s.readers| ==> Releases(s.released, i) == if s.readers[i].stage.Finished? then 1 else 0)
            && HeldOpen(s.readers, s.open) && Distinct(s.readers)
            && |s.open| <= 2 * s.slots
  {
    hide Held, Unfinished, Descriptors, Releases, HeldOpen, Distinct, Apply, Enabled;
    InitialKeeps();
    RunKeeps(Initial(), run);
    var s := After(Initial(), run);
    DescriptorsBound(s.readers);
    ReleasedCount(Initial(), run);
  }

  lemma {:induction false} InitialKeeps()
    ensures Inv(Initial())
  {
  }

  lemma {:induction false} ReleasedCount(s: State, run: seq<Action>)
    requires Runs(s, run) && |s.released| + s.slots == |s.readers|
    ensures |After(s, run).released| + After(s, run).slots == |After(s, run).readers|
    decreases |run|
  {
    if run != [] {
      ReleasedCount(Apply(s, run[0]), run[1..]);
    }
  }

  /** The steps a read still has to take of its own accord. */
  function Rest(stage: Stage, i: nat): seq<Action> {
    match stage
    case Starting => [OpenFails(i), Post(i), Release(i)]
    case Walking(_) => [WalkEnds(i), ReadEnds(i), CloseFile(i), Post(i), Release(i)]
    case Between(_, next) =>
      if next == None then [CloseDirectory(i), Post(i), Release(i)]
      else [CloseDirectory(i), WalkEnds(i), ReadEnds(i), CloseFile(i), Post(i), Release(i)]
    case Reading(_) => [ReadEnds(i), CloseFile(i), Post(i), Release(i)]
    case Closing(_) => [CloseFile(i), Post(i), Release(i)]
    case Ending => [Post(i), Release(i)]
    case Posted => [Release(i)]
    case Finished => []
  }

  /** No slot is lost: whatever the requests, the cap and the other reads do, a
      read that is not stalled for ever can run to its end by itself, and then
      its slot and its descriptors are free. */
  lemma {:induction false} SlotComesBack(s: State, i: nat)
    requires Inv(s) && At(s, i) && !s.readers[i].stage.Finished?
    ensures Runs(s, Rest(s.readers[i].stage, i))
    ensures var s' := After(s, Rest(s.readers[i].stage, i));
            s'.slots == s.slots - 1 && s'.readers == s.readers[i := s.readers[i].(stage := Finished)]
            && s'.open == s.open - Held(s.readers[i].stage)
    decreases |Rest(s.readers[i].stage, i)|
  {
    hide Inv, Releases, Unfinished, Descriptors;
    var rest := Rest(s.readers[i].stage, i);
    assert Enabled(s, rest[0]) by {
      if s.readers[i].stage.Posted? { SlotHeld(s, i); }
    }
    var next := Apply(s, rest[0]);
    StepKeeps(s, rest[0]);
    assert rest[1..] == Rest(next.readers[i].stage, i);
    if next.readers[i].stage.Finished? {
      assert rest[1..] == [];
    } else {
      SlotComesBack(next, i);
    }
  }

  lemma {:induction false} SlotHeld(s: State, i: nat)
    requires Inv(s) && At(s, i) && !s.readers[i].stage.Finished?
    ensures s.slots > 0
  {
    SomeUnfinished(s.readers, i);
  }

  // ---- admission ----

  /** A request is admitted exactly when fewer than 64 reads are unfinished: it
      then adds one read that waits, and takes one slot. Refused, it changes
      nothing. */
  lemma {:induction false} AdmittedExactly(s: State)
    requires Inv(s)
    ensures Enabled(s, Arrive)
    ensures var t := Apply(s, Arrive);
            && (Unfinished(s.readers) < 64 <==> t.readers != s.readers)
            && (t.readers != s.readers ==>
                  && t.readers == s.readers + [Read(Starting, Waiting)] && t.slots == s.slots + 1
                  && t.open == s.open && t.released == s.released)
            && (t.readers == s.readers ==> t == s)
  {
    hide Unfinished, HeldOpen, Distinct, Descriptors, ReleasedOnce;
    assert |s.readers + [Read(Starting, Waiting)]| != |s.readers|;
  }

  /** How many arrivals of a run met fewer than 64 unfinished reads. */
  function Admissible(s: State, run: seq<Action>): nat
    requires Runs(s, run)
    decreases |run|
  {
    if run == [] then 0
    else (if run[0].Arrive? && Unfinished(s.readers) < 64 then 1 else 0) + Admissible(Apply(s, run[0]), run[1..])
  }

  /** That many reads are admitted in the run, and no other. */
  lemma {:induction false} AdmittedInRun(s: State, run: seq<Action>)
    requires Inv(s) && Runs(s, run)
    ensures |After(s, run).readers| == |s.readers| + Admissible(s, run)
    decreases |run|
  {
    hide Inv, Enabled, Apply, Unfinished;
    if run != [] {
      StepKeeps(s, run[0]);
      AdmittedInRun(Apply(s, run[0]), run[1..]);
      if run[0].Arrive? {
        AdmittedExactly(s);
      } else {
        NoneAdmitted(s, run[0]);
      }
    }
  }

  lemma {:induction false} NoneAdmitted(s: State, a: Action)
    requires Enabled(s, a) && !a.Arrive?
    ensures |Apply(s, a).readers| == |s.readers|
  {
  }

  // ---- answers ----

  /** A request that was given the result of its read has had it posted. */
  predicate AnswersTrue(s: State) {
    forall i :: 0 <= i < |s.readers| && s.readers[i].answer.FromRead? ==>
      s.readers[i].stage.Posted? || s.readers[i].stage.Finished?
  }

  lemma {:induction false} AnswerStep(s: State, a: Action)
    requires AnswersTrue(s) && Enabled(s, a)
    ensures AnswersTrue(Apply(s, a)) && |s.readers| <= |Apply(s, a).readers|
    ensures forall i :: 0 <= i < |s.readers| ==>
              var was, now := s.readers[i].answer, Apply(s, a).readers[i].answer;
              && (was != now ==> was == Waiting)
              && (now == FromRead <==> was == FromRead || a == AnswerWithRead(i))
              && (now == GaveUp <==> was == GaveUp || a == AnswerWithout(i))
  {
  }

  /** Each request is answered once: with its read, and then that was posted,
      or without it; and no answer is ever changed. */
  lemma {:induction false} AnsweredOnce(s: State, run: seq<Action>, i: nat)
    requires AnswersTrue(s) && Runs(s, run) && At(s, i)
    ensures At(After(s, run), i) && AnswersTrue(After(s, run))
    ensures var was, now := s.readers[i].answer, After(s, run).readers[i].answer;
            && (was != Waiting ==> now == was)
            && (was == Waiting ==>
                  && (now == Waiting <==> AnswerWithRead(i) !in run && AnswerWithout(i) !in run)
                  && (now == FromRead ==> AnswerWithRead(i) in run) && (now == GaveUp ==> AnswerWithout(i) in run))
    decreases |run|
  {
    hide Enabled, Apply, AnswersTrue;
    if run != [] {
      AnswerStep(s, run[0]);
      AnsweredOnce(Apply(s, run[0]), run[1..], i);
      assert forall a :: a in run <==> a == run[0] || a in run[1..];
    }
  }

  // ---- a read in full ----

  /** The steps of a walk from one directory through the next descriptors. */
  function WalkSteps(i: nat, fds: seq<Fd>): seq<Action> {
    if fds == [] then [] else [OpenNext(i, fds[0]), CloseDirectory(i)] + WalkSteps(i, fds[1..])
  }

  lemma {:induction false} RunsAppend(s: State, a: seq<Action>, b: seq<Action>)
    requires Runs(s, a) && Runs(After(s, a), b)
    ensures Runs(s, a + b) && After(s, a + b) == After(After(s, a), b)
    decreases |a|
  {
    hide Enabled, Apply;
    if a == [] {
      assert a + b == b;
    } else {
      RunsAppend(Apply(s, a[0]), a[1..], b);
      assert (a + b)[1..] == a[1..] + b;
    }
  }

  lemma {:induction false} TwoSteps(s: State, a: Action, b: Action)
    requires Enabled(s, a) && Enabled(Apply(s, a), b)
    ensures Runs(s, [a, b]) && After(s, [a, b]) == Apply(Apply(s, a), b)
  {
    hide Enabled, Apply;
    assert [a, b][1..] == [b] && [b][1..] == [];
    assert Runs(Apply(s, a), [b]) && After(Apply(s, a), [b]) == Apply(Apply(s, a), b);
  }

  predicate Fresh(fds: seq<Fd>, open: set<Fd>) {
    (forall j :: 0 <= j < |fds| ==> fds[j] !in open) && forall j, k :: 0 <= j < k < |fds| ==> fds[j] != fds[k]
  }

  /** A walk of any length gets through, with one descriptor in the end. */
  lemma {:induction false} Walks(s: State, i: nat, fds: seq<Fd>)
    requires At(s, i) && s.readers[i].stage.Walking? && s.readers[i].stage.fd in s.open && Fresh(fds, s.open)
    ensures Runs(s, WalkSteps(i, fds))
    ensures var fd := s.readers[i].stage.fd;
            var last := if fds == [] then fd else fds[|fds| - 1];
            After(s, WalkSteps(i, fds)) == To(s, i, Walking(last)).(open := s.open - {fd} + {last})
    decreases |fds|
  {
    hide Runs, After;
    var fd := s.readers[i].stage.fd;
    if fds == [] {
      Stays(s);
      assert s.readers[i := s.readers[i].(stage := Walking(fd))] == s.readers && s.open - {fd} + {fd} == s.open;
    } else {
      var next := To(s, i, Walking(fds[0])).(open := s.open - {fd} + {fds[0]});
      OneComponent(s, i, fds[0]);
      TwoSteps(s, OpenNext(i, fds[0]), CloseDirectory(i));
      Walks(next, i, fds[1..]);
      RunsAppend(s, [OpenNext(i, fds[0]), CloseDirectory(i)], WalkSteps(i, fds[1..]));
      var last := fds[|fds| - 1];
      assert To(next, i, Walking(last)).readers == To(s, i, Walking(last)).readers;
      assert s.open - {fd} + {fds[0]} - {fds[0]} == s.open - {fd};
    }
  }

  lemma {:induction false} Stays(s: State)
    ensures Runs(s, []) && After(s, []) == s
  {
  }

  lemma {:induction false} OneComponent(s: State, i: nat, fd: Fd)
    requires At(s, i) && s.readers[i].stage.Walking? && s.readers[i].stage.fd in s.open && fd !in s.open
    ensures Enabled(s, OpenNext(i, fd)) && Enabled(Apply(s, OpenNext(i, fd)), CloseDirectory(i))
    ensures Apply(Apply(s, OpenNext(i, fd)), CloseDirectory(i))
         == To(s, i, Walking(fd)).(open := s.open - {s.readers[i].stage.fd} + {fd})
  {
    var old' := s.readers[i].stage.fd;
    var t := Apply(Apply(s, OpenNext(i, fd)), CloseDirectory(i));
    assert t.readers == s.readers[i := s.readers[i].(stage := Walking(fd))];
    assert s.open + {fd} - {old'} == s.open - {old'} + {fd};
  }

  /** What a read does that goes well: the walk, the read, the close, the result
      posted and taken, and the slot given back. */
  function FullSteps(i: nat, root: Fd, fds: seq<Fd>): seq<Action> {
    [OpenRoot(i, root)] + WalkSteps(i, fds) + [WalkEnds(i), ReadEnds(i)] + [CloseFile(i), Post(i)]
    + [AnswerWithRead(i), Release(i)]
  }

  /** An admitted read can go well, down a path of any length: its request is
      answered with it, its slot comes back, and no descriptor is left open. */
  lemma {:induction false} ReadsInFull(s: State, i: nat, root: Fd, fds: seq<Fd>)
    requires Inv(s) && At(s, i) && s.readers[i] == Read(Starting, Waiting) && Fresh([root] + fds, s.open)
    ensures Runs(s, FullSteps(i, root, fds))
    ensures s.slots > 0
    ensures After(s, FullSteps(i, root, fds))
         == s.(readers := s.readers[i := Read(Finished, FromRead)], slots := s.slots - 1, released := s.released + [i])
  {
    hide Runs, After, Inv, WalkSteps, Unfinished;
    SlotHeld(s, i);
    FreshTail(root, fds, s.open);
    var s1 := Apply(s, OpenRoot(i, root));
    Walks(s1, i, fds);
    One(s, OpenRoot(i, root));
    var s2 := After(s1, WalkSteps(i, fds));
    EndsWell(s2, i);
    var last := s2.readers[i].stage.fd;
    var run1 := [OpenRoot(i, root)] + WalkSteps(i, fds);
    RunsAppend(s, [OpenRoot(i, root)], WalkSteps(i, fds));
    RunsAppend(s, run1, [WalkEnds(i), ReadEnds(i)]);
    RunsAppend(s, run1 + [WalkEnds(i), ReadEnds(i)], [CloseFile(i), Post(i)]);
    RunsAppend(s, run1 + [WalkEnds(i), ReadEnds(i)] + [CloseFile(i), Post(i)], [AnswerWithRead(i), Release(i)]);
    assert s2.readers[i := Read(Finished, FromRead)] == s.readers[i := Read(Finished, FromRead)];
    assert last !in s.open && s2.open - {last} == s.open;
  }

  lemma {:induction false} One(s: State, a: Action)
    requires Enabled(s, a)
    ensures Runs(s, [a]) && After(s, [a]) == Apply(s, a)
  {
    hide Enabled, Apply;
    assert [a][1..] == [];
  }

  lemma {:induction false} FreshTail(root: Fd, fds: seq<Fd>, open: set<Fd>)
    requires Fresh([root] + fds, open)
    ensures root !in open && Fresh(fds, open + {root})
  {
    var all := [root] + fds;
    assert all[0] == root && forall j :: 0 <= j < |fds| ==> all[j + 1] == fds[j];
  }

  lemma {:induction false} EndsWell(s: State, i: nat)
    requires At(s, i) && s.readers[i].stage.Walking? && s.readers[i].answer.Waiting? && s.slots > 0
    ensures var a, b, c := [WalkEnds(i), ReadEnds(i)], [CloseFile(i), Post(i)], [AnswerWithRead(i), Release(i)];
            && Runs(s, a) && Runs(After(s, a), b) && Runs(After(After(s, a), b), c)
            && After(After(After(s, a), b), c)
            == s.(readers := s.readers[i := Read(Finished, FromRead)], slots := s.slots - 1,
                  open := s.open - {s.readers[i].stage.fd}, released := s.released + [i])
  {
    hide Runs, After;
    TwoSteps(s, WalkEnds(i), ReadEnds(i));
    var t := Apply(Apply(s, WalkEnds(i)), ReadEnds(i));
    TwoSteps(t, CloseFile(i), Post(i));
    var u := Apply(Apply(t, CloseFile(i)), Post(i));
    TwoSteps(u, AnswerWithRead(i), Release(i));
    assert Apply(Apply(u, AnswerWithRead(i)), Release(i)).readers == s.readers[i := Read(Finished, FromRead)];
  }
}
