/**
 * Armada's job set event stream, as waitForRunning and ingressAddress read it:
 * line by line until one is decisive for the job.
 */
module EventStreams {
  import opened Common

  type JobId = string

  datatype RunningEvent = RunningEvent(
    jobId: Option<JobId>, clusterId: Option<string>, podName: Option<string>,
    podNamespace: Option<string>, nodeName: Option<string>)

  datatype FailedEvent = FailedEvent(jobId: Option<JobId>, reason: Option<string>, retryable: Option<bool>)

  datatype IngressEvent = IngressEvent(jobId: Option<JobId>, addresses: Option<map<int, string>>)

  datatype CancelledEvent = CancelledEvent(jobId: Option<JobId>)

  datatype Message = Message(
    running: Option<RunningEvent>, ingressInfo: Option<IngressEvent>,
    failed: Option<FailedEvent>, cancelled: Option<CancelledEvent>)

  /** What the stream yields next: a parsed line; a value that is no object; or
      nothing any more, because the connection, the parser or the timeout gave
      up. */
  datatype Item =
    | Line(error: Option<Option<string>>, message: Option<Message>)
    | NoObject
    | Broken

  datatype PodLocation = PodLocation(clusterId: string, podName: string, podNamespace: string, nodeName: Option<string>)

  datatype Failure =
    | StreamError(why: string)
    | BadLine
    | Disconnected
    | JobFailed(reason: string)
    | JobCancelled
    | NoAddress
    | StreamEnded

  datatype Outcome<+T> = Success(value: T) | Failure(failure: Failure)

  function OrDefault(o: Option<string>, default': string): string {
    match o case Some(s) => s case None => default'
  }

  // ---- the readers ----

  method WaitForRunning(items: seq<Item>, job: JobId, namespace: string) returns (r: Outcome<PodLocation>)
    ensures r == Decided(items, item => RunningVerdict(item, job, namespace))
  {
    ghost var verdict := item => RunningVerdict(item, job, namespace);
    var i := 0;
    while i < |items|
      invariant i <= |items| && Decided(items, verdict) == Decided(items[i..], verdict)
    {
      var item := items[i];
      assert items[i..][0] == item && items[i..][1..] == items[i + 1..];
      i := i + 1;
      if item.Broken? { return Failure(Disconnected); }
      if item.NoObject? { return Failure(BadLine); }
      if item.error.Some? { return Failure(StreamError(OrDefault(item.error.value, "unknown error"))); }
      if item.message.None? { continue; }
      var message := item.message.value;
      if message.running.Some? && message.running.value.jobId == Some(job) {
        var running := message.running.value;
        return Success(PodLocation(
          OrDefault(running.clusterId, ""), OrDefault(running.podName, ""),
          OrDefault(running.podNamespace, namespace), running.nodeName));
      }
      if message.failed.Some? && message.failed.value.jobId == Some(job) && message.failed.value.retryable != Some(true) {
        return Failure(JobFailed(OrDefault(message.failed.value.reason, "no reason given")));
      }
      if message.cancelled.Some? && message.cancelled.value.jobId == Some(job) {
        return Failure(JobCancelled);
      }
    }
    assert items[i..] == [];
    return Failure(StreamEnded);
  }

  method IngressAddress(items: seq<Item>, job: JobId, port: int) returns (r: Outcome<string>)
    ensures r == Decided(items, item => AddressVerdict(item, job, port))
  {
    ghost var verdict := item => AddressVerdict(item, job, port);
    var i := 0;
    while i < |items|
      invariant i <= |items| && Decided(items, verdict) == Decided(items[i..], verdict)
    {
      var item := items[i];
      assert items[i..][0] == item && items[i..][1..] == items[i + 1..];
      i := i + 1;
      if item.Broken? { return Failure(Disconnected); }
      if item.NoObject? { return Failure(BadLine); }
      if item.error.Some? { return Failure(StreamError(OrDefault(item.error.value, "unknown error"))); }
      if item.message.None? { continue; }
      var message := item.message.value;
      if message.ingressInfo.Some? && message.ingressInfo.value.jobId == Some(job) {
        var addresses := message.ingressInfo.value.addresses;
        if addresses.Some? && port in addresses.value && addresses.value[port] != "" {
          return Success(addresses.value[port]);
        }
        return Failure(NoAddress);
      }
      if message.failed.Some? && message.failed.value.jobId == Some(job) && message.failed.value.retryable != Some(true) {
        return Failure(JobFailed(OrDefault(message.failed.value.reason, "no reason given")));
      }
      if message.cancelled.Some? && message.cancelled.value.jobId == Some(job) {
        return Failure(JobCancelled);
      }
    }
    assert items[i..] == [];
    return Failure(StreamEnded);
  }

  // ---- what they mean ----

  /** What decides the outcome of any reader: the first item it has a verdict on. */
  function Decided<T>(items: seq<Item>, verdict: Item -> Option<Outcome<T>>): Outcome<T> {
    if items == [] then Failure(StreamEnded)
    else match verdict(items[0])
      case Some(outcome) => outcome
      case None => Decided(items[1..], verdict)
  }

  /** A failure of the stream itself. */
  function StreamVerdict(item: Item): Option<Failure> {
    match item
    case Broken => Some(Disconnected)
    case NoObject => Some(BadLine)
    case Line(Some(why), _) => Some(StreamError(OrDefault(why, "unknown error")))
    case Line(None, _) => None
  }

  /** A message that ends the job: a failure not to be retried, or a cancel. */
  function EndVerdict(message: Message, job: JobId): Option<Failure> {
    match (message.failed, message.cancelled)
    case (Some(FailedEvent(Some(id), reason, retryable)), cancelled) =>
      if id == job && retryable != Some(true) then Some(JobFailed(OrDefault(reason, "no reason given")))
      else if cancelled == Some(CancelledEvent(Some(job))) then Some(JobCancelled) else None
    case (_, cancelled) =>
      if cancelled == Some(CancelledEvent(Some(job))) then Some(JobCancelled) else None
  }

  function RunningVerdict(item: Item, job: JobId, namespace: string): Option<Outcome<PodLocation>> {
    match StreamVerdict(item)
    case Some(failure) => Some(Failure(failure))
    case None =>
      match item.message
      case None => None
      case Some(message) =>
        if message.running.Some? && message.running.value.jobId == Some(job) then
          Some(Success(PodLocation(
            OrDefault(message.running.value.clusterId, ""), OrDefault(message.running.value.podName, ""),
            OrDefault(message.running.value.podNamespace, namespace), message.running.value.nodeName)))
        else match EndVerdict(message, job)
          case Some(failure) => Some(Failure(failure))
          case None => None
  }

  function AddressVerdict(item: Item, job: JobId, port: int): Option<Outcome<string>> {
    match StreamVerdict(item)
    case Some(failure) => Some(Failure(failure))
    case None =>
      match item.message
      case None => None
      case Some(message) =>
        if message.ingressInfo.Some? && message.ingressInfo.value.jobId == Some(job) then
          var addresses := message.ingressInfo.value.addresses;
          if addresses.Some? && port in addresses.value && addresses.value[port] != ""
          then Some(Success(addresses.value[port])) else Some(Failure(NoAddress))
        else match EndVerdict(message, job)
          case Some(failure) => Some(Failure(failure))
          case None => None
  }

  /** A message that says nothing of this job: it is empty, or all that it holds
      is of other jobs, or a failure after which another run follows. */
  predicate OfOthers(message: Message, job: JobId) {
    && (message.running.Some? ==> message.running.value.jobId != Some(job))
    && (message.ingressInfo.Some? ==> message.ingressInfo.value.jobId != Some(job))
    && (message.failed.Some? && message.failed.value.jobId == Some(job) ==> message.failed.value.retryable == Some(true))
    && (message.cancelled.Some? ==> message.cancelled.value.jobId != Some(job))
  }

  predicate Stutters(item: Item, job: JobId) {
    item.Line? && item.error == None && (item.message.Some? ==> OfOthers(item.message.value, job))
  }

  lemma {:induction false} StuttersUndecided(item: Item, job: JobId, namespace: string, port: int)
    requires Stutters(item, job)
    ensures RunningVerdict(item, job, namespace) == None && AddressVerdict(item, job, port) == None
  {
  }

  // ---- the outcome in the whole stream ----

  /** Items that stutter, wherever they come and however many there are. */
  function Without(items: seq<Item>, job: JobId): seq<Item> {
    if items == [] then []
    else if Stutters(items[0], job) then Without(items[1..], job)
    else [items[0]] + Without(items[1..], job)
  }

  lemma {:induction false} DecidedByRest<T>(items: seq<Item>, job: JobId, verdict: Item -> Option<Outcome<T>>)
    requires forall item :: Stutters(item, job) ==> verdict(item) == None
    ensures Decided(items, verdict) == Decided(Without(items, job), verdict)
  {
    hide Stutters;
    if items != [] {
      DecidedByRest(items[1..], job, verdict);
      if !Stutters(items[0], job) {
        assert Without(items, job)[1..] == Without(items[1..], job);
      }
    }
  }

  /** Stutter-insensitivity: two streams that differ only in events of other
      jobs, empty messages and retryable failures have the same outcome, be it a
      pod, an address or a reason to fail. */
  lemma {:induction false} StutterInsensitive(a: seq<Item>, b: seq<Item>, job: JobId, namespace: string, port: int)
    requires Without(a, job) == Without(b, job)
    ensures Decided(a, item => RunningVerdict(item, job, namespace))
            == Decided(b, item => RunningVerdict(item, job, namespace))
    ensures Decided(a, item => AddressVerdict(item, job, port)) == Decided(b, item => AddressVerdict(item, job, port))
  {
    hide Stutters, RunningVerdict, AddressVerdict, Without, Decided;
    var running := item => RunningVerdict(item, job, namespace);
    var address := item => AddressVerdict(item, job, port);
    forall item | Stutters(item, job) ensures running(item) == None && address(item) == None {
      StuttersUndecided(item, job, namespace, port);
    }
    DecidedByRest(a, job, running);
    DecidedByRest(b, job, running);
    DecidedByRest(a, job, address);
    DecidedByRest(b, job, address);
  }

  lemma {:induction false} DecidedAt<T>(items: seq<Item>, n: nat, verdict: Item -> Option<Outcome<T>>)
    requires n < |items| && verdict(items[n]).Some? && forall k :: 0 <= k < n ==> verdict(items[k]) == None
    ensures Decided(items, verdict) == verdict(items[n]).value
  {
    if n > 0 {
      DecidedAt(items[1..], n - 1, verdict);
    }
  }

  /** In a stream without end: whoever reads far enough has the outcome of the
      first decisive item, and reading on changes nothing. */
  lemma {:induction false} FirstDecisiveStands<T>(stream: nat -> Item, n: nat, m: nat, verdict: Item -> Option<Outcome<T>>)
    requires n < m && verdict(stream(n)).Some? && forall k :: 0 <= k < n ==> verdict(stream(k)) == None
    ensures Decided(seq(m, (k: nat) => stream(k)), verdict) == verdict(stream(n)).value
  {
    var items := seq(m, (k: nat) => stream(k));
    assert forall k :: 0 <= k < m ==> items[k] == stream(k);
    DecidedAt(items, n, verdict);
  }

  // ---- what each item means ----

  predicate Announces(message: Message, job: JobId) {
    message.running.Some? && message.running.value.jobId == Some(job)
  }

  predicate TellsAddress(message: Message, job: JobId) {
    message.ingressInfo.Some? && message.ingressInfo.value.jobId == Some(job)
  }

  /** A failure after which no other run follows. */
  predicate FailsForGood(message: Message, job: JobId) {
    message.failed.Some? && message.failed.value.jobId == Some(job) && message.failed.value.retryable != Some(true)
  }

  predicate Cancels(message: Message, job: JobId) {
    message.cancelled.Some? && message.cancelled.value.jobId == Some(job)
  }

  predicate Ends(message: Message, job: JobId) { FailsForGood(message, job) || Cancels(message, job) }

  /** The stream itself is at an end, for this reason. */
  predicate GivesOut(item: Item, failure: Failure) {
    match item
    case Broken => failure == Disconnected
    case NoObject => failure == BadLine
    case Line(Some(Some(why)), _) => failure == StreamError(why)
    case Line(Some(None), _) => failure == StreamError("unknown error")
    case Line(None, _) => false
  }

  /** The job is at an end, for this reason; a failure comes before a cancel. */
  predicate Tells(message: Message, job: JobId, failure: Failure) {
    if FailsForGood(message, job) then
      failure == JobFailed(if message.failed.value.reason.Some? then message.failed.value.reason.value else "no reason given")
    else Cancels(message, job) && failure == JobCancelled
  }

  predicate Is(told: Option<string>, default': string, value: string) {
    (told.Some? ==> value == told.value) && (told.None? ==> value == default')
  }

  /** The pod is the one the event names, each part of it in its place. */
  predicate PodOf(running: RunningEvent, namespace: string, pod: PodLocation) {
    && Is(running.podName, "", pod.podName) && Is(running.clusterId, "", pod.clusterId)
    && Is(running.podNamespace, namespace, pod.podNamespace) && pod.nodeName == running.nodeName
  }

  predicate Serves(info: IngressEvent, port: int, address: string) {
    info.addresses.Some? && port in info.addresses.value && info.addresses.value[port] == address && address != ""
  }

  /** A line with a message, and no error. */
  predicate Speaks(item: Item) { item.Line? && item.error == None && item.message.Some? }

  /** What waitForRunning is to make of one item: the pod of a running event of
      the job, else the end of the stream or of the job. */
  predicate RunningSays(item: Item, job: JobId, namespace: string, r: Outcome<PodLocation>) {
    match r
    case Success(pod) =>
      Speaks(item) && Announces(item.message.value, job) && PodOf(item.message.value.running.value, namespace, pod)
    case Failure(failure) =>
      GivesOut(item, failure)
      || (Speaks(item) && !Announces(item.message.value, job) && Tells(item.message.value, job, failure))
  }

  predicate SilentOnRunning(item: Item, job: JobId) {
    item.Line? && item.error == None
    && (item.message.Some? ==> !Announces(item.message.value, job) && !Ends(item.message.value, job))
  }

  /** What ingressAddress is to make of one: the port's address, or its absence,
      of an address event of the job; else the same ends. */
  ghost predicate AddressSays(item: Item, job: JobId, port: int, r: Outcome<string>) {
    match r
    case Success(address) =>
      Speaks(item) && TellsAddress(item.message.value, job)
      && Serves(item.message.value.ingressInfo.value, port, address)
    case Failure(failure) =>
      GivesOut(item, failure)
      || (Speaks(item) && TellsAddress(item.message.value, job) && failure == NoAddress
          && forall address :: !Serves(item.message.value.ingressInfo.value, port, address))
      || (Speaks(item) && !TellsAddress(item.message.value, job) && Tells(item.message.value, job, failure))
  }

  predicate SilentOnAddress(item: Item, job: JobId) {
    item.Line? && item.error == None
    && (item.message.Some? ==> !TellsAddress(item.message.value, job) && !Ends(item.message.value, job))
  }

  lemma {:induction false} RunningMeans(item: Item, job: JobId, namespace: string, r: Outcome<PodLocation>)
    ensures RunningVerdict(item, job, namespace) == None <==> SilentOnRunning(item, job)
    ensures RunningVerdict(item, job, namespace) == Some(r) <==> RunningSays(item, job, namespace, r)
  {
  }

  lemma {:induction false} AddressMeans(item: Item, job: JobId, port: int, r: Outcome<string>)
    ensures AddressVerdict(item, job, port) == None <==> SilentOnAddress(item, job)
    ensures AddressVerdict(item, job, port) == Some(r) <==> AddressSays(item, job, port, r)
  {
    if item.Line? && item.error == None && item.message.Some? && TellsAddress(item.message.value, job) {
      var info := item.message.value.ingressInfo.value;
      if info.addresses.Some? && port in info.addresses.value && info.addresses.value[port] != "" {
        assert Serves(info, port, info.addresses.value[port]);
      }
    }
  }

  lemma {:induction false} DecidedExactly<T>(items: seq<Item>, verdict: Item -> Option<Outcome<T>>, r: Outcome<T>)
    ensures Decided(items, verdict) == r <==>
            (exists n :: 0 <= n < |items| && verdict(items[n]) == Some(r) && forall k :: 0 <= k < n ==> verdict(items[k]) == None)
            || (r == Failure(StreamEnded) && forall k :: 0 <= k < |items| ==> verdict(items[k]) == None)
  {
    if items != [] {
      DecidedExactly(items[1..], verdict, r);
      var rest := items[1..];
      assert forall k :: 0 <= k < |rest| ==> rest[k] == items[k + 1];
      if verdict(items[0]) == None {
        if n :| 0 <= n < |rest| && verdict(rest[n]) == Some(r) && forall k :: 0 <= k < n ==> verdict(rest[k]) == None {
          assert verdict(items[n + 1]) == Some(r);
          assert forall k :: 0 <= k < n + 1 ==> verdict(items[k]) == None;
        }
        if n :| 0 <= n < |items| && verdict(items[n]) == Some(r) && forall k :: 0 <= k < n ==> verdict(items[k]) == None {
          assert verdict(rest[n - 1]) == Some(r);
        }
      }
    }
  }

  /** The outcome is what the first item that is not silent on it says, or that
      the stream ended; and nothing else. */
  lemma {:induction false} RunningExactly(items: seq<Item>, job: JobId, namespace: string, r: Outcome<PodLocation>)
    ensures Decided(items, item => RunningVerdict(item, job, namespace)) == r <==>
            (exists n :: 0 <= n < |items| && RunningSays(items[n], job, namespace, r)
                         && forall k :: 0 <= k < n ==> SilentOnRunning(items[k], job))
            || (r == Failure(StreamEnded) && forall k :: 0 <= k < |items| ==> SilentOnRunning(items[k], job))
  {
    hide RunningVerdict, RunningSays, SilentOnRunning, Decided;
    var verdict := item => RunningVerdict(item, job, namespace);
    DecidedExactly(items, verdict, r);
    forall n | 0 <= n < |items|
      ensures verdict(items[n]) == Some(r) <==> RunningSays(items[n], job, namespace, r)
      ensures verdict(items[n]) == None <==> SilentOnRunning(items[n], job) {
      RunningMeans(items[n], job, namespace, r);
    }
  }

  lemma {:induction false} AddressExactly(items: seq<Item>, job: JobId, port: int, r: Outcome<string>)
    ensures Decided(items, item => AddressVerdict(item, job, port)) == r <==>
            (exists n :: 0 <= n < |items| && AddressSays(items[n], job, port, r)
                         && forall k :: 0 <= k < n ==> SilentOnAddress(items[k], job))
            || (r == Failure(StreamEnded) && forall k :: 0 <= k < |items| ==> SilentOnAddress(items[k], job))
  {
    hide AddressVerdict, AddressSays, SilentOnAddress, Decided;
    var verdict := item => AddressVerdict(item, job, port);
    DecidedExactly(items, verdict, r);
    forall n | 0 <= n < |items|
      ensures verdict(items[n]) == Some(r) <==> AddressSays(items[n], job, port, r)
      ensures verdict(items[n]) == None <==> SilentOnAddress(items[n], job) {
      AddressMeans(items[n], job, port, r);
    }
  }

  /** The two readers of one job fail alike: when neither its pod nor its
      address has been announced, they have the same reason. */
  lemma {:induction false} SameFailure(items: seq<Item>, job: JobId, namespace: string, port: int)
    requires forall item :: item in items && item.Line? && item.message.Some? ==>
               (item.message.value.running.Some? ==> item.message.value.running.value.jobId != Some(job))
               && (item.message.value.ingressInfo.Some? ==> item.message.value.ingressInfo.value.jobId != Some(job))
    ensures var pod := Decided(items, item => RunningVerdict(item, job, namespace));
            var address := Decided(items, item => AddressVerdict(item, job, port));
            pod.Failure? && address.Failure? && pod.failure == address.failure
  {
    hide EndVerdict, StreamVerdict, OrDefault, Decided, RunningVerdict, AddressVerdict, FailAlike;
    var running := item => RunningVerdict(item, job, namespace);
    var address := item => AddressVerdict(item, job, port);
    forall item | item in items ensures FailAlike(running(item), address(item)) {
      AlikeAt(item, job, namespace, port);
    }
    AlikeThroughout(items, running, address);
  }

  lemma {:induction false} AlikeAt(item: Item, job: JobId, namespace: string, port: int)
    requires item.Line? && item.message.Some? ==>
               (item.message.value.running.Some? ==> item.message.value.running.value.jobId != Some(job))
               && (item.message.value.ingressInfo.Some? ==> item.message.value.ingressInfo.value.jobId != Some(job))
    ensures FailAlike(RunningVerdict(item, job, namespace), AddressVerdict(item, job, port))
  {
    hide EndVerdict, OrDefault;
  }

  predicate FailAlike<T, U>(a: Option<Outcome<T>>, b: Option<Outcome<U>>) {
    (a == None && b == None)
    || (a.Some? && b.Some? && a.value.Failure? && b.value.Failure? && a.value.failure == b.value.failure)
  }

  lemma {:induction false} AlikeThroughout<T, U>(
    items: seq<Item>, a: Item -> Option<Outcome<T>>, b: Item -> Option<Outcome<U>>)
    requires forall item :: item in items ==> FailAlike(a(item), b(item))
    ensures Decided(items, a).Failure? && Decided(items, b).Failure?
    ensures Decided(items, a).failure == Decided(items, b).failure
  {
    if items != [] {
      assert items[0] in items && forall item :: item in items[1..] ==> item in items;
      AlikeThroughout(items[1..], a, b);
    }
  }
}
