/**
 * listActive: every page of Lookout's job list, gathered into one entry per
 * sandbox, and what the queue directory then remembers of it.
 */
module Lookout {
  import opened Common
  import Queues

  datatype LookoutJob = LookoutJob(jobSet: Option<string>, queue: Option<string>, submitted: Option<string>)

  datatype ActiveJob = ActiveJob(id: string, queue: string, createdAt: Option<string>)

  const PAGE: nat := 500

  /** One page of the list, as Lookout answers it over a snapshot. */
  function Page(snapshot: seq<LookoutJob>, skip: nat, take: nat): (jobs: seq<LookoutJob>)
    ensures |jobs| <= take
  {
    if skip >= |snapshot| then []
    else if skip + take >= |snapshot| then snapshot[skip..]
    else snapshot[skip..skip + take]
  }

  /** A job of a set with a name, in a queue with a name. */
  predicate Usable(job: LookoutJob) {
    job.jobSet.Some? && job.jobSet.value != "" && job.queue.Some? && job.queue.value != ""
  }

  predicate IsJobOf(job: LookoutJob, id: string) { Usable(job) && job.jobSet.value == id }

  function EntryOf(job: LookoutJob): ActiveJob
    requires Usable(job)
  {
    ActiveJob(job.jobSet.value, job.queue.value, job.submitted)
  }

  /** Map.set, in insertion order. */
  function Put(entries: seq<ActiveJob>, entry: ActiveJob): seq<ActiveJob> {
    if entries == [] then [entry]
    else if entries[0].id == entry.id then [entry] + entries[1..]
    else [entries[0]] + Put(entries[1..], entry)
  }

  function Gathered(jobs: seq<LookoutJob>): seq<ActiveJob> {
    if jobs == [] then []
    else
      var before, job := Gathered(jobs[..|jobs| - 1]), jobs[|jobs| - 1];
      if Usable(job) then Put(before, EntryOf(job)) else before
  }

  /** The loop over pages ends at the first that is not full, an empty one after
      an exact multiple of the page size included, having seen every job once. */
  method ListActive(snapshot: seq<LookoutJob>) returns (active: seq<ActiveJob>, pages: nat)
    ensures active == Gathered(snapshot)
    ensures pages == |snapshot| / PAGE + 1
  {
    active, pages := [], 0;
    var skip := 0;
    while true
      invariant skip == pages * 500 && skip <= |snapshot| && active == Gathered(snapshot[..skip])
      decreases |snapshot| - skip
    {
      var jobs := Page(snapshot, skip, PAGE);
      pages := pages + 1;
      for i := 0 to |jobs|
        invariant active == Gathered(snapshot[..skip + i])
      {
        assert snapshot[..skip + i + 1][..skip + i] == snapshot[..skip + i] && jobs[i] == snapshot[skip + i];
        if jobs[i].jobSet.None? || jobs[i].jobSet.value == "" { continue; }
        if jobs[i].queue.None? || jobs[i].queue.value == "" { continue; }
        active := Put(active, ActiveJob(jobs[i].jobSet.value, jobs[i].queue.value, jobs[i].submitted));
      }
      if |jobs| < PAGE {
        assert snapshot[..skip + |jobs|] == snapshot;
        return;
      }
      skip := skip + PAGE;
    }
  }

  // ---- what is gathered ----

  /** The first job of the set. */
  function First(jobs: seq<LookoutJob>, id: string): (i: nat)
    ensures i <= |jobs|
    ensures i < |jobs| ==> IsJobOf(jobs[i], id)
    ensures forall k :: 0 <= k < i ==> !IsJobOf(jobs[k], id)
  {
    if jobs == [] || IsJobOf(jobs[0], id) then 0 else First(jobs[1..], id) + 1
  }

  /** The entry has the set, the queue and the time of submission of the job. */
  predicate Tells(job: LookoutJob, entry: ActiveJob) {
    job.jobSet == Some(entry.id) && job.queue == Some(entry.queue) && job.submitted == entry.createdAt
  }

  /** Entry and set agree: it is what the last job of the set says. */
  predicate FromLast(jobs: seq<LookoutJob>, entry: ActiveJob) {
    exists k :: 0 <= k < |jobs| && IsJobOf(jobs[k], entry.id) && Tells(jobs[k], entry)
                && forall m :: k < m < |jobs| ==> !IsJobOf(jobs[m], entry.id)
  }

  predicate HasEntry(entries: seq<ActiveJob>, id: string) {
    exists i :: 0 <= i < |entries| && entries[i].id == id
  }

  predicate InOrder(jobs: seq<LookoutJob>, entries: seq<ActiveJob>) {
    forall i, j :: 0 <= i < j < |entries| ==> First(jobs, entries[i].id) < First(jobs, entries[j].id)
  }

  /** One entry for each set with a usable job and for no other, in the order in
      which the sets first occur, each as the last such job has it. */
  predicate Complete(jobs: seq<LookoutJob>, entries: seq<ActiveJob>) {
    && (forall i :: 0 <= i < |entries| ==> FromLast(jobs, entries[i]))
    && (forall k :: 0 <= k < |jobs| && Usable(jobs[k]) ==> HasEntry(entries, jobs[k].jobSet.value))
    && InOrder(jobs, entries)
  }

  lemma {:induction false} FirstSnoc(jobs: seq<LookoutJob>, job: LookoutJob, id: string)
    ensures First(jobs + [job], id) ==
            if First(jobs, id) < |jobs| then First(jobs, id) else if IsJobOf(job, id) then |jobs| else |jobs| + 1
  {
    if jobs != [] {
      assert (jobs + [job])[1..] == jobs[1..] + [job];
      FirstSnoc(jobs[1..], job, id);
    } else {
      assert (jobs + [job])[1..] == [];
    }
  }

  lemma {:induction false} HasTail(entries: seq<ActiveJob>, id: string)
    requires entries != []
    ensures HasEntry(entries, id) <==> entries[0].id == id || HasEntry(entries[1..], id)
  {
    if i :| 0 <= i < |entries| && entries[i].id == id {
      assert i > 0 ==> entries[1..][i - 1].id == id;
    }
    if i :| 0 <= i < |entries[1..]| && entries[1..][i].id == id {
      assert entries[i + 1].id == id;
    }
  }

  /** Where Put writes: in place of the entry with that id, or at the end. */
  lemma {:induction false} PutShape(entries: seq<ActiveJob>, entry: ActiveJob)
    ensures var r := Put(entries, entry);
            if HasEntry(entries, entry.id) then
              |r| == |entries|
              && exists i :: 0 <= i < |entries| && entries[i].id == entry.id && r == entries[i := entry]
            else r == entries + [entry]
  {
    if entries != [] {
      var r := Put(entries, entry);
      HasTail(entries, entry.id);
      if entries[0].id == entry.id {
        assert r == entries[0 := entry];
      } else {
        PutShape(entries[1..], entry);
        if HasEntry(entries[1..], entry.id) {
          var j :| 0 <= j < |entries| - 1 && entries[1..][j].id == entry.id && Put(entries[1..], entry) == entries[1..][j := entry];
          assert r == entries[j + 1 := entry] && entries[j + 1].id == entry.id;
        }
      }
    }
  }

  lemma {:induction false} FromLastSnoc(jobs: seq<LookoutJob>, job: LookoutJob, entry: ActiveJob)
    requires FromLast(jobs, entry) && !IsJobOf(job, entry.id)
    ensures FromLast(jobs + [job], entry)
  {
    hide Tells;
    var k :| 0 <= k < |jobs| && IsJobOf(jobs[k], entry.id) && Tells(jobs[k], entry)
             && forall m :: k < m < |jobs| ==> !IsJobOf(jobs[m], entry.id);
    assert (jobs + [job])[k] == jobs[k];
  }

  lemma {:induction false} FromLastIs(jobs: seq<LookoutJob>, job: LookoutJob)
    requires Usable(job)
    ensures FromLast(jobs + [job], EntryOf(job))
  {
    assert (jobs + [job])[|jobs|] == job;
  }

  lemma {:induction false} EntryOccurs(jobs: seq<LookoutJob>, entry: ActiveJob)
    requires FromLast(jobs, entry)
    ensures First(jobs, entry.id) < |jobs|
  {
    hide EntryOf;
  }

  /** A job that is skipped changes nothing. */
  lemma {:induction false} SkippedKeeps(jobs: seq<LookoutJob>, job: LookoutJob, entries: seq<ActiveJob>)
    requires Complete(jobs, entries) && !Usable(job)
    ensures Complete(jobs + [job], entries)
  {
    hide FromLast, HasEntry, First;
    forall i | 0 <= i < |entries| ensures FromLast(jobs + [job], entries[i]) {
      FromLastSnoc(jobs, job, entries[i]);
    }
    OrderSnoc(jobs, job, entries);
  }

  lemma {:induction false} OrderSnoc(jobs: seq<LookoutJob>, job: LookoutJob, entries: seq<ActiveJob>)
    requires InOrder(jobs, entries) && forall i :: 0 <= i < |entries| ==> FromLast(jobs, entries[i])
    ensures InOrder(jobs + [job], entries)
  {
    hide FromLast, First;
    forall i | 0 <= i < |entries| ensures First(jobs + [job], entries[i].id) == First(jobs, entries[i].id) < |jobs| {
      EntryOccurs(jobs, entries[i]);
      FirstSnoc(jobs, job, entries[i].id);
    }
  }

  lemma {:induction false} DistinctIds(jobs: seq<LookoutJob>, entries: seq<ActiveJob>, i: nat, j: nat)
    requires InOrder(jobs, entries) && i < |entries| && j < |entries| && entries[i].id == entries[j].id
    ensures i == j
  {
    hide First;
  }

  /** A job of a set already there replaces its entry. */
  lemma {:induction false} ReplacedKeeps(jobs: seq<LookoutJob>, job: LookoutJob, entries: seq<ActiveJob>, at: nat)
    requires Complete(jobs, entries) && Usable(job) && at < |entries| && entries[at].id == job.jobSet.value
    ensures Complete(jobs + [job], entries[at := EntryOf(job)])
  {
    hide FromLast, First, EntryOf, HasEntry;
    var entries' := entries[at := EntryOf(job)];
    EntryId(job);
    forall i | 0 <= i < |entries'| ensures FromLast(jobs + [job], entries'[i]) {
      if i == at {
        FromLastIs(jobs, job);
      } else {
        if entries[i].id == entries[at].id {
          DistinctIds(jobs, entries, i, at);
        }
        FromLastSnoc(jobs, job, entries[i]);
      }
    }
    OrderSnoc(jobs, job, entries);
    assert forall i :: 0 <= i < |entries| ==> entries'[i].id == entries[i].id;
    forall k | 0 <= k < |jobs + [job]| && Usable((jobs + [job])[k])
      ensures HasEntry(entries', (jobs + [job])[k].jobSet.value) {
      if k < |jobs| {
        assert (jobs + [job])[k] == jobs[k];
        SameIds(entries, entries', jobs[k].jobSet.value);
      } else {
        HasAt(entries', at);
      }
    }
  }

  lemma {:induction false} EntryId(job: LookoutJob)
    requires Usable(job)
    ensures EntryOf(job).id == job.jobSet.value
  {
  }

  lemma {:induction false} SameIds(a: seq<ActiveJob>, b: seq<ActiveJob>, id: string)
    requires |a| <= |b| && (forall i :: 0 <= i < |a| ==> b[i].id == a[i].id) && HasEntry(a, id)
    ensures HasEntry(b, id)
  {
    var i :| 0 <= i < |a| && a[i].id == id;
    assert b[i].id == id;
  }

  lemma {:induction false} HasAt(entries: seq<ActiveJob>, i: nat)
    requires i < |entries|
    ensures HasEntry(entries, entries[i].id)
  {
  }

  /** The first job of a new set goes to the end. */
  lemma {:induction false} AppendedKeeps(jobs: seq<LookoutJob>, job: LookoutJob, entries: seq<ActiveJob>)
    requires Complete(jobs, entries) && Usable(job) && !HasEntry(entries, job.jobSet.value)
    ensures Complete(jobs + [job], entries + [EntryOf(job)])
  {
    hide FromLast, First, EntryOf, HasEntry;
    var entries' := entries + [EntryOf(job)];
    EntryId(job);
    forall i | 0 <= i < |entries'| ensures FromLast(jobs + [job], entries'[i]) {
      if i == |entries| {
        FromLastIs(jobs, job);
      } else {
        HasAt(entries, i);
        FromLastSnoc(jobs, job, entries[i]);
      }
    }
    OrderSnoc(jobs, job, entries);
    NewIsLast(jobs, job, entries);
    forall i | 0 <= i < |entries| ensures First(jobs + [job], entries[i].id) < First(jobs + [job], job.jobSet.value) {
      EntryOccurs(jobs, entries[i]);
      FirstSnoc(jobs, job, entries[i].id);
    }
    forall k | 0 <= k < |jobs + [job]| && Usable((jobs + [job])[k])
      ensures HasEntry(entries', (jobs + [job])[k].jobSet.value) {
      if k < |jobs| {
        assert (jobs + [job])[k] == jobs[k];
        SameIds(entries, entries', jobs[k].jobSet.value);
      } else {
        HasAt(entries', |entries|);
      }
    }
  }

  lemma {:induction false} NewIsLast(jobs: seq<LookoutJob>, job: LookoutJob, entries: seq<ActiveJob>)
    requires Complete(jobs, entries) && Usable(job) && !HasEntry(entries, job.jobSet.value)
    ensures First(jobs + [job], job.jobSet.value) == |jobs|
  {
    hide HasEntry;
    FirstSnoc(jobs, job, job.jobSet.value);
  }

  /** Pagination is complete, whatever the snapshot. */
  lemma {:induction false} GatheredComplete(jobs: seq<LookoutJob>)
    ensures Complete(jobs, Gathered(jobs))
  {
    hide Complete, EntryOf, HasEntry;
    if jobs == [] {
      NothingGathered();
    } else {
      var before, job := jobs[..|jobs| - 1], jobs[|jobs| - 1];
      assert jobs == before + [job];
      GatheredComplete(before);
      if !Usable(job) {
        SkippedKeeps(before, job, Gathered(before));
      } else {
        EntryId(job);
        PutShape(Gathered(before), EntryOf(job));
        if HasEntry(Gathered(before), job.jobSet.value) {
          var i :| 0 <= i < |Gathered(before)| && Gathered(before)[i].id == EntryOf(job).id
                   && Put(Gathered(before), EntryOf(job)) == Gathered(before)[i := EntryOf(job)];
          ReplacedKeeps(before, job, Gathered(before), i);
        } else {
          AppendedKeeps(before, job, Gathered(before));
        }
      }
    }
  }

  /** So an id is listed exactly when some job names it and its queue, and what
      is listed has a name and a queue. */
  lemma {:induction false} ListedExactly(jobs: seq<LookoutJob>, id: string)
    ensures HasEntry(Gathered(jobs), id) <==>
            id != "" && exists k, queue :: 0 <= k < |jobs| && jobs[k].jobSet == Some(id) && jobs[k].queue == Some(queue) && queue != ""
    ensures forall i :: 0 <= i < |Gathered(jobs)| ==> Gathered(jobs)[i].id != "" && Gathered(jobs)[i].queue != ""
  {
    hide Gathered, First, InOrder;
    GatheredComplete(jobs);
  }

  lemma {:induction false} NothingGathered()
    ensures Complete([], [])
  {
  }

  /** The sandboxes listed are told apart by their ids. */
  lemma {:induction false} OneEntryEach(jobs: seq<LookoutJob>, i: nat, j: nat)
    requires i < |Gathered(jobs)| && j < |Gathered(jobs)| && Gathered(jobs)[i].id == Gathered(jobs)[j].id
    ensures i == j
  {
    hide First, Gathered;
    GatheredComplete(jobs);
    DistinctIds(jobs, Gathered(jobs), i, j);
  }

  // ---- what the provider remembers ----

  /** The loop around listActive: each sandbox found is remembered in the queue
      of its last job, and nothing else changes. */
  method RememberActive(directory: Queues.QueueDirectory, snapshot: seq<LookoutJob>) returns (active: seq<ActiveJob>)
    requires directory.Valid()
    modifies directory
    ensures directory.Valid() && Complete(snapshot, active)
    ensures forall i :: 0 <= i < |active| ==>
              active[i].id in directory.remembered && directory.remembered[active[i].id] == Queues.Named(active[i].queue)
    ensures forall id :: !HasEntry(active, id) ==>
              (id in directory.remembered <==> id in old(directory.remembered))
              && (id in directory.remembered ==> directory.remembered[id] == old(directory.remembered)[id])
  {
    hide Complete, Gathered;
    var pages: nat;
    active, pages := ListActive(snapshot);
    GatheredComplete(snapshot);
    for i := 0 to |active|
      invariant directory.Valid()
      invariant forall j :: 0 <= j < i ==>
                  active[j].id in directory.remembered && directory.remembered[active[j].id] == Queues.Named(active[j].queue)
      invariant forall id :: !HasEntry(active, id) ==>
                  (id in directory.remembered <==> id in old(directory.remembered))
                  && (id in directory.remembered ==> directory.remembered[id] == old(directory.remembered)[id])
    {
      directory.Remember(active[i].id, Queues.Named(active[i].queue));
      HasAt(active, i);
      forall j | 0 <= j < i ensures active[j].id != active[i].id {
        if active[j].id == active[i].id { OneEntryEach(snapshot, i, j); }
      }
    }
  }
}
