# Armada compute adapter: a verified model

The adapter runs marimohub notebook kernels as Armada jobs. A small agent is PID 1
of every pod: it runs commands, reads files, waits for ports and reaps orphans. The
adapter talks to that agent over HTTP and to Armada and Lookout over theirs.

This project models the parts of both whose correctness does not show in any one
function, and proves it for every input, interleaving and run. `dafny verify
dfyconfig.toml` checks all of it.

## What is modelled

**The exec pipeline.** `ExecServer` is the agent's side of `/exec` as a transition
system: two reader goroutines and the main one take turns on the mutex of the event
writer, in any order; pipes are read in any sizes; a line reaches the body byte by
byte. `ExecEvents`, `Json` and `Base64` (section 4 of RFC 4648) give the text of a
line. `Utf8` is the streaming decoder (section 3 of RFC 3629, with a decoder's
replacement of malformed input and its removal of one byte order mark), `Ndjson` the
reader over arbitrary chunks, `Channel` the collector. `Utf8Reference` says of malformed
bytes, by the encoding alone, what that decoder is to make of them. The end-to-end
theorem, `Channel.ExecEndToEnd`, spans all of them: whatever the interleaving, the read
sizes and the cuts of the network, the client reports the bytes the process wrote to
each pipe, as text, with the outcome its one `cmd.Wait` returned: a failure, a timeout
or an exit code. `Channel.CutConnectionNeverCompletes` is its partner for a response that breaks off,
and `ExecProgress` shows that the goroutines cannot get stuck: from every state some
run ends. `Stream` is the pull machine of `stream`, with the lines its generator has
buffered; `StreamedOutput` ties what it enqueues to what the process wrote.

**The placement protocol.** `Placement` is a transition system whose steps are the
code between two awaits: any number of short-lived sandbox instances share one queue
directory and one placement cache, against an Armada that dedupes by (queue, client
id) and a Lookout that may not answer. Answers of `listActive` arrive late, submits
whose caller gave up may still land, adapter processes restart with other owner maps.
`Queues` is the directory as a class, with `resolve` cut in two at its await; the
transition system uses the same functions for its decisions. `PlacementCoherence` and
`PlacementCalls` are what every run keeps, `PlacementProgress` what calls can bring
about, `PlacementHome` the one queue of a sandbox, and `PlacementLimits` shows that the
assumption behind it is the weakest that does: `PlacementLimits.AssumptionIsExact`.

**The shell prefix.** `Shell` is a fragment of the POSIX.1-2017 Shell Command
Language, XCU chapter 2: quoting (2.2.1 to 2.2.3), token recognition (2.3) and
`${NAME:-}` (2.6.2). `ShellEnv` adds AND-OR lists (2.9.3), `export` and `[ -n ]`, and
proves what evaluating the emitted text does to an environment and to the input after
it.

**Bounded reads.** `NoFollow` is the walk, a kernel class beneath it whose file system
may be another at every system call; `ReadSlots` the semaphore whose slot outlives its
request; `BoundedRead` the budget, the agent's read of a file that may change under
it, and the client's accumulator.

**Supervision.** `PortWait` is the port wait on a virtual clock in nanoseconds with
Go's 64-bit arithmetic, and the client's timer; `Reaper` the PID 1 reaper beside the
goroutines that wait for their own children; `ProcStat` the parser of `/proc` stat
lines.

**Smaller loops.** `Lookout` is the pagination of `listActive` and what is remembered
of it, `EventStreams` the two readers of the job set event stream, `GpuProfiles` the
profile parser, the startup check and the pod spec's lookup. `Common`, `Text` and
`Decimal` hold what these share.

## Assumptions

- One adapter process at a time. Calls on one sandbox instance do not overlap; calls
  on different instances interleave freely.
- Lookout is up to date and keeps finished jobs. The default queue, which is also the
  mark on jobs, is the same over restarts. An owner map requires Lookout, which
  `readConfig` enforces (src/config.ts:630-638).
- A lookup starts *unrivalled* (`Placement.Unrivalled`): no other call on the sandbox
  that has yet to settle, submit or cancel, and no submit still on its way, is headed
  for another queue than this one would choose, unless the sandbox already has a job.
  A process that maps no owner takes over only what is in its one queue. Only the
  one-queue results rest on this; coherence and what single calls do does not.
- Pids are not reused, and no child is a zombie before its pid is stored.
- An Armada job runs once (`failFast`); its pod and address are those of the first
  event that names them.
- marimohub asks for a profile's GPU as `TYPE` or `TYPE:count`, the type in upper case
  (`GpuProfiles.Requested`); that is outside this repository.

The third cannot be weakened: `PlacementLimits.AssumptionIsExact` shows that it
excludes exactly the steps after which some continuation, itself within the
assumption, gives a sandbox two jobs or lets a destroy miss its job. Nor can the part
of the fourth that is about zombies: `Reaper.AssumptionIsExact` shows that it excludes
exactly the steps after which some continuation, itself within the assumption, has the
reaper collect a child that the agent started.

## Where the code is not as its comments or callers might have it

1. A key in both `env` and `defaults` does not always resolve to the forced value, as
   src/shell.ts:27-31 says: a forced empty value loses to a default that is not empty.
   `ShellEnv.ForcedWinsExactly` gives the exact condition, `ShellEnv.ForcedEmptyLoses`
   a case.
2. `waitForPort` adds its slack to the timer without the clamp `boundedReadGiveUpMs`
   has (src/channel.ts:585). `PortWait.AbortAfterAnswer`: the abort follows the agent's
   answer exactly for timeouts up to 2^31 - 1 - 10000 ms; beyond, it fires after 1 ms, and
   `PortWait.WaitForPort` loses the answer.
3. One queue per sandbox does not follow from there being no two lookups of it at once
   with different owners: `destroy` forgets the queue of a submit that is still on its
   way. `PlacementLimits.ForgettingRace` is the run, for every configuration with a map;
   `PlacementLimits.AssumptionIsExact` has the exact condition.
4. The agent's deadline wraps in 64 bits for timeouts of about 292 years
   (agent/process.go:311). `PortWait.PatienceExactly` has the exact range. No timeout
   that this client can send comes near it.
5. The adapter's own timeout does not always close a stream rather than fail it
   (src/channel.ts:395-423): a value that must be refused, and that had arrived before
   the abort in one chunk with others, still fails it.
   `Stream.AbortedFailsExactly` has the exact condition on what is buffered by then.
6. An owner whose user or project id is the name of a member all objects inherit,
   `constructor` or `toString` say, is placed in no queue but in that member
   (src/queues.ts:75-79). `Queues.PlacedProperly` says exactly which ids are placed
   properly. For the same reason a GPU selector whose only label is `__proto__` is
   refused as empty (src/config.ts:442-447).
7. The reaper does not collect orphans only, as agent/reaper_linux.go:20-22 says. From
   `cmd.Start` to `children.Store` (agent/server.go:167-174, agent/process.go:77-87) a
   child is not marked as owned; if it exits within that window, a sweep can take its
   exit status. `Reaper.AssumptionIsExact` shows that this window is all that does
   harm; `Reaper.EarlyExitIsStolen` shows what is then reported.
8. A read of a pipe that fails ends its reader as the end of the file does
   (agent/server.go:233-246), and nothing tells the client.
   `ExecProgress.FailedReadTruncates`: from every state in which stdout's reader may
   fail, the client can be given an exit code with no more than the output read so far.

## Model

| member | source | states |
|---|---|---|
| Base64.RoundTrip | agent/server.go:112-119 | the client's lenient decoder gives back the bytes of every chunk the agent encodes, across the padding cases |
| Base64.EncodedShape | src/sandbox.ts:75-84 | n bytes take exactly 4*ceil(n/3) characters, the size the budget check computes |
| Base64.AlphabetExactly | agent/server.go:112-119 | the encoder's alphabet is table 1 of RFC 4648, character by character, and the decoder takes the two of table 2 too |
| Base64.DecodesLeniently | src/channel.ts:335-336 | the decoder passes over any other character and stops at the first pad |
| Utf8.TextDecoder.Decode | src/ndjson.ts:9-20 | one call on a chunk leaves the decoder in the state, and yields the text, of the bytes so far: feeding is incremental |
| Utf8.FeedAppend | src/ndjson.ts:20 | decoding in two pieces is decoding their concatenation, wherever the cut falls, mid-character too |
| Utf8.DecodeEncode | src/ndjson.ts:20 | every text decodes from its UTF-8 to itself, but for one leading byte order mark |
| Utf8.ToTextEncode | src/channel.ts:354-358 | decoding a whole buffer gives back any text, a leading mark included |
| Utf8.NewlineResynchronises | src/ndjson.ts:20-27 | after a newline byte the decoder is at rest whatever came before, so what follows decodes on its own |
| Utf8.NewlinesOnlyFromNewlines | src/ndjson.ts:21 | no byte but the newline byte ever decodes to a newline |
| Utf8Reference.DecodeReads | src/ndjson.ts:20 | whatever the bytes, the decoder yields what the encoding alone makes of them: each character, and one U+FFFD for each longest start of a character that is cut short and for each byte that starts none |
| Utf8Reference.ToTextReads | src/channel.ts:354-358 | the same of a whole buffer, with one more U+FFFD for a character its end cuts off |
| Ndjson.ReadNdjson | src/ndjson.ts:8-39 | the nested loops yield the values of the bytes' non-blank lines and fail where the first unparsable line stands, or, when the connection breaks, after the whole lines that had arrived; the same for every cut into chunks |
| Ndjson.ValuesOfText | src/ndjson.ts:8-39 | for the UTF-8 of a text the values are those of its lines |
| Ndjson.RecordsAreLines | src/ndjson.ts:21-31 | the records are what stands between newlines, trimmed, without the blank ones |
| Text.TrimExactly | src/ndjson.ts:30-31 | trimming takes white space off both ends and all there is |
| Ndjson.ValuesExactly | src/ndjson.ts:30-31 | the values are those of the records before the first that does not parse |
| Ndjson.WholeLinesExactly | src/ndjson.ts:20-27 | of a body that breaks off, what is read is all but what follows the last newline |
| Ndjson.LinesDecodeApart | src/ndjson.ts:20-27 | splitting at newline bytes and decoding commute, malformed bytes included |
| Json.ParsePrintObject | agent/server.go:267 | every printed event object parses back to its fields, Go's HTML-safe escapes included |
| Json.CutObjectFails | src/ndjson.ts:30-31 | a printed object cut anywhere short of its end does not parse, so a broken last line cannot pass for an event |
| Json.QuotedIsSafe | agent/server.go:267 | no text is printed with a control character, a bare quote, or one of the characters Go escapes for HTML |
| Json.ShortEscapes | agent/server.go:267 | the characters with a short escape have theirs, those HTML would see a hexadecimal one |
| Json.StringsStrict | src/ndjson.ts:30-31 | a string without its quote or with a bare control character is refused; hexadecimal digits count in either case |
| ExecEvents.ParsePrintEvent | agent/server.go:112-119 | each event reads back as the client is meant to see it, omitted fields as undefined |
| ExecEvents.WireFormat | agent/server.go:112-119 | the line of each kind of event, key by key |
| ExecEvents.ObjectIsOneLine | agent/server.go:263-271 | a printed event holds no newline and nothing that trimming removes: it is one line |
| ExecEvents.CutText | src/ndjson.ts:17-31 | of any prefix of the lines, the values read are those of the first so many events and nothing else |
| ExecServer.Forward | agent/server.go:233-246 | the reader's loop over one reused buffer sends fresh copies, each within the chunk size, that join to all that was read, up to end of file or to an error |
| ExecServer.StepKeepsInv | agent/server.go:177-219 | every step of either reader, of the main goroutine and of the mutex keeps: whole lines but the holder's own, nothing taken from a pipe lost, pid first, output, one final event |
| ExecServer.EndedRun | agent/server.go:177-219 | every run that ends has sent the pid event first, exactly one final event last and only output between; it carries a prefix of what the run's process wrote to each pipe, all of it unless a read of that pipe failed; and the final event has the error its one `cmd.Wait` returned with code 0, else its code and whether the deadline had passed |
| ExecServer.BodySoFar | agent/server.go:203-219 | at any moment the body is a prefix of whole lines in order, and an exit is among them only as the last, with both pipes drained or failed |
| ExecProgress.ComesToTheEnd | agent/server.go:177-219 | from every state in order with both pipes closed, the goroutines' own steps, none of them waiting for another for ever, lead to the end of the response with the same output |
| ExecProgress.EveryRunCanEnd | agent/server.go:200-219 | every run can be continued to its end: the mutex and the two readers cannot deadlock |
| ExecProgress.AnythingIsReported | src/channel.ts:313-359 | for all texts and every exit there is a run in which the client is told just that |
| ExecProgress.FailedReadTruncates | agent/server.go:233-246 | from any state in which stdout's reader may fail, a run ends with an exit code reported and the text of only what had been read |
| Channel.Run | src/channel.ts:313-359 | the collecting loop reports the text of the joined decoded output with the last exit, or fails on any error event, broken connection, unparsable line or missing exit |
| Channel.ResultExactly | src/channel.ts:333-359 | it fails exactly when the body cannot be read, an event reports an error or none has an exit; else the last exit counts, a timeout exactly when that says so |
| Channel.NoExitFails | src/channel.ts:344-346 | without an exit status there is no result |
| Channel.ExecEndToEnd | agent/server.go:177-271 | end to end: for every run that ends and every cut of its body, the result is a failure exactly when `cmd.Wait` returned another error than an exit with code 0, else a timeout exactly when the deadline had passed, else its code and the text of what was read of the two pipes, which is all the process wrote unless a read failed |
| Channel.TextIsReported | src/channel.ts:354-358 | so a process that printed UTF-8 text and exited in time, its pipes read without failure, has exactly that text and status reported |
| Channel.CutConnectionNeverCompletes | src/channel.ts:333-347 | a connection cut before the whole body is through never yields a completed result other than the true one |
| Stream.FaithfulPrefix | src/channel.ts:390-423 | in every run what is enqueued is the stdout of the first so many events in order; and once the response has ended by itself, and was not cancelled, the stream is closed and that is all of it |
| Stream.NothingAfterTheEnd | src/channel.ts:400-417 | nothing is enqueued after close, error or cancel |
| Stream.EndsExactly | src/channel.ts:386-429 | in every run the stream is closed if and only if the open stream met the end of the response, or an exception once it had been aborted; failed if and only if it met another exception or a value to be refused; cancelled if and only if its consumer did; the timer and the consumer abort the response and nothing else does; and the timer is cleared with the end, but for a value that is no event |
| Stream.PullsToTheEnd | src/channel.ts:391-423 | from every open state, pulls and the rest of the response lead to a stream that is closed or failed, closed if no line is left on which it cannot go on |
| Stream.OneChunkAPull | src/channel.ts:392-421 | no more chunks than pulls, and a pull of an open stream skips lines without stdout until it has enqueued exactly one |
| Stream.CancelsAtAnyTime | src/channel.ts:425-428 | an open stream can be cancelled at any time, and stays so |
| Stream.FailsExactlyWhen | src/channel.ts:395-417 | in every run, a stream that was not aborted has failed if and only if the connection did or a line was pulled on which it cannot go on |
| Stream.AbortNeverFails | src/channel.ts:386-388 | without such a value, a stream the adapter aborted never fails |
| Stream.AbortedFailsExactly | src/channel.ts:395-417 | an aborted open stream has a run in which it fails if and only if a value to be refused is among the lines buffered by then, ahead of any that is no JSON |
| Stream.ReceivedErrorFailsAfterTimeout | src/channel.ts:413-417 | such a run from the start: output and an error event in one chunk, with the timer between the pulls |
| StreamedOutput.StreamedFaithfully | src/channel.ts:371-431 | for every run of the handler, every prefix of its body and every run of the stream over it, the bytes enqueued are a prefix of what the process wrote to stdout; when the whole of a finished response arrived and was pulled to its end, the stream is closed and they are all that was read of it, all that was written unless a read failed |
| Shell.QuoteInverted | src/shell.ts:19-21 | in front of any input, the lexer reads a quoted value as its characters, then goes on as it would have |
| Shell.QuoteIsOneWord | src/shell.ts:19-21 | before a delimiter a quoted value is exactly one word of that value |
| Shell.NamesExactly | src/shell.ts:52-57 | a variable name is accepted exactly when it is a letter or underscore, then letters, digits and underscores |
| Shell.JoinedWords | src/shell.ts:65-73 | words joined by spaces are cut apart again, up to the operator that ends them |
| Shell.GitCloneCommand | src/shell.ts:65-73 | the command lexes to exactly its intended arguments, for every repository, branch and target |
| Shell.GitCloneArgvExactly | src/shell.ts:65-73 | those are the branch as an option, the repository, and the target last, here by default |
| ShellEnv.ExpandLitWords | src/shell.ts:65-73 | no expansion changes a quoted word, in any environment |
| ShellEnv.RunForced | src/shell.ts:38-40 | one forced export sets that variable to that value and leaves the input after it |
| ShellEnv.RunGuarded | src/shell.ts:41-44 | one guarded export sets its variable exactly when that is unset or empty |
| ShellEnv.PrefixMeaning | src/shell.ts:33-46 | evaluating the prefix overlays the forced values, then applies the defaults, and leaves the command as the remaining input; it is refused exactly for an invalid name |
| ShellEnv.PrefixEffect | src/shell.ts:33-46 | name by name: the forced value, else the image's, and a default exactly where that is unset or empty |
| ShellEnv.ForcedWinsExactly | src/shell.ts:27-31 | a key in both resolves to the forced value if and only if that is not empty, or the default is empty too |
| ShellEnv.ForcedEmptyLoses | src/shell.ts:27-31 | a forced empty value the command does not see |
| ShellEnv.ProcessMeaning | src/sandbox.ts:602-611 | the nested form evaluates to the sandbox's variables with the process's own over them, and leaves the command |
| ShellEnv.OwnValueWins | src/sandbox.ts:606-611 | a process's own value wins over forced values and defaults, an empty one too |
| ShellEnv.MergeAt | src/sandbox.ts:575-579 | of spread objects the later value counts, key by key |
| ShellEnv.Variables.SetEnvVars | src/sandbox.ts:571-580 | an invalid name changes nothing; otherwise the new values win in their map, the other map stays, and stored names stay valid |
| ShellEnv.Variables.StartCommand | src/sandbox.ts:599-611 | the command is refused exactly when an option gives a value to an invalid name; else, run in any image, every option that gives a value has it, every other name is as the sandbox's own prefix leaves it, and the command is what is left of the input |
| Queues.PlacedProperly | src/queues.ts:75-79 | an owner goes to one of the deployment's queues if and only if the ids that decide it are mapped or are no inherited members |
| Queues.ConstructorIsMisplaced | src/queues.ts:75-79 | one that does not |
| Queues.MappedExactly | src/queues.ts:64-71 | there is more than one queue if and only if some owner with plain ids is placed outside the default |
| Queues.UnmappedIsDefault | src/queues.ts:75-79 | without a map every owner with plain ids goes to the default queue |
| Queues.UserBeforeProject | src/queues.ts:75-79 | a mapped user's queue is the one it maps to whatever the project; a mapped project counts for a user that is not mapped or for none; else the default |
| Queues.OtherMapIsIdle | src/queues.ts:75-79 | the project map has no part in where a mapped user goes, nor the user map in where the others go |
| Queues.QueueDirectory.Begin | src/queues.ts:94-97 | resolve up to its request: what is remembered, else the default when no owner maps elsewhere, else it asks |
| Queues.QueueDirectory.Settle | src/queues.ts:98-112 | resolve after the answer: the queue found; else the user's, else the project's, else the default; it overwrites what others have remembered meanwhile |
| PlacementHome.LookingHome | src/queues.ts:94-113 | an unrivalled lookup may choose the queue of a sandbox anew without breaking the invariant of any other call, job or memory |
| PlacementHome.StepKeeps | src/sandbox.ts:234-282 | every step keeps the invariant: jobs, memory, calls under way and late submits of a sandbox agree on one queue |
| PlacementHome.OneJobPerSandbox | src/armada.ts:133-194 | in every run, over restarts and changes of the owner map, a sandbox has at most one job |
| PlacementHome.OneQueuePerSandbox | src/queues.ts:94-113 | all submits for a sandbox that arrive in a run arrive at one queue |
| PlacementLimits.AssumptionIsExact | src/queues.ts:94-113 | from a state in order, a step meets the assumption if and only if no assumed continuation makes a second job for a sandbox or a destroy that misses |
| PlacementLimits.SubmitRivalSplits | src/queues.ts:98-112 | of a lookup for any purpose, without a job: a rival about to submit elsewhere makes a second job |
| PlacementLimits.DestroyRivalMisses | src/sandbox.ts:649-656 | a rival about to cancel elsewhere misses the job |
| PlacementLimits.UnsettledRivalSplits | src/queues.ts:94-113 | a rival whose own lookup, for any purpose, is under way or just answered makes a second job |
| PlacementLimits.LateRivalSplits | src/armada.ts:133-194 | so does a submit that was given up on and is still on its way elsewhere |
| PlacementLimits.TakeoverSplits | src/queues.ts:94-97 | so does a process without a map that takes over a sandbox that is elsewhere |
| PlacementLimits.ForgettingRace | src/queues.ts:86-88 | for every configuration with a map, a run with never two lookups of a sandbox at once that ends with two jobs |
| PlacementHome.CancelHits | src/armada.ts:321-342 | when a cancel arrives, every job of the sandbox is in the queue it names and is cancelled |
| PlacementHome.DestroyHitsTheJob | src/sandbox.ts:649-656 | in every run, so does the cancel of every destroy, and it is still so when the call returns |
| PlacementCalls.FailedLookupChangesNothing | src/queues.ts:98-104 | when Lookout cannot say, destroy throws, and whatever other calls did meanwhile, the world is as it would be had it never been called |
| PlacementCoherence.StepCoheres | src/sandbox.ts:234-256 | every step, rivalled or not, keeps caches, instances, jobs, pods and channels coherent |
| PlacementCoherence.PlacementsCohere | src/sandbox.ts:234-256 | in every run each cached placement and each instance links a job of that sandbox, that job's pod, and a channel to that job's address under that sandbox's token |
| PlacementCalls.AdoptedInItsCall | src/sandbox.ts:234-256 | a channel an instance has come to hold answered its check in the very call of ready that adopted it |
| PlacementCoherence.HolderNeverSubmits | src/sandbox.ts:247 | an instance that holds a job submits none from then on, destroyed or not, and goes on holding one |
| PlacementCoherence.HolderNeverSubmitsAgain | src/sandbox.ts:247 | so it is in every run from the start, rivalled or not |
| PlacementHome.HolderKeepsItsJob | src/sandbox.ts:241 | with one queue, the job it holds is the same one |
| PlacementProgress.ReadyCompletes | src/sandbox.ts:234-267 | from wherever a call of ready is, its own steps, a Lookout that answers, a job that runs and a healthy agent lead to a channel, which is cached unless it came from the cache; an attached call where there is a job |
| PlacementProgress.CanBecomeReady | src/sandbox.ts:234-267 | so from every coherent state any instance that may submit can come to hold a job of its sandbox and that job's address |
| PlacementProgress.CacheServes | src/sandbox.ts:236-243 | a sandbox the process has reached is reached again by any instance with one health check, and nothing submitted |
| PlacementProgress.GoneIsDropped | src/sandbox.ts:244-247 | a cached placement that does not answer is dropped, and the call goes on |
| PlacementProgress.DestroyCompletes | src/sandbox.ts:645-662 | from wherever a call of destroy is, its own steps lead to its end: the job it is headed for or Lookout names is cancelled, and queue, placement, pod and channel are forgotten |
| PlacementProgress.CanBeDestroyed | src/sandbox.ts:645-662 | so any sandbox can be destroyed from every coherent state |
| PlacementProgress.GivenUpMayLand | src/armada.ts:133-194 | a submit that was given up on may still make a job |
| PlacementProgress.SentMayLand | src/armada.ts:133-194 | so may one that was on its way when the process was restarted |
| PlacementProgress.RestartForgets | src/provider.ts:28-46 | a restart leaves the jobs and the submits on their way, and nothing remembered |
| PlacementProgress.ListedIsKnown | src/provider.ts:54-58 | what listActive found answers for its sandboxes in place of Lookout, and for no others |
| PlacementProgress.SettledIsKnown | src/queues.ts:105-112 | a queue once settled answers later calls on the sandbox |
| PlacementCalls.AttachedRun | src/sandbox.ts:273-282 | a process of attached instances alone has no job added, whatever it does |
| PlacementCalls.AttachedNeverAdds | src/sandbox.ts:273-282 | in every run, among whatever other instances, no step of an attached one adds a job or leaves a submit on its way: it is never about to submit, and no failure or restart takes a submit over from it |
| NoFollow.CollectNames | agent/files_linux.go:22-27 | the names of a path are its parts between slashes without the empty ones and the dots |
| NoFollow.AcceptedNames | agent/files.go:126-130 | an accepted path has a name to open, its last part is that name, and no name climbs or holds a slash |
| NoFollow.AcceptableExactly | agent/files.go:126-130 | the paths accepted are exactly those spelled as slashes each before a part, no part `..`, the last neither empty nor a dot |
| NoFollow.ComponentsCanonical | agent/files.go:126-130 | an accepted path opens as the plain path its components spell |
| NoFollow.Kernel.Openat | agent/files_linux.go:33 | one step on the file system of that moment: a new descriptor for a node that is no symlink, or an error and none |
| NoFollow.OpenNoFollow | agent/files_linux.go:17-41 | on success exactly the answer's descriptor has been added, on failure none; never more than two were open; each component was, at the moment of its step, a node that is no symlink in the directory opened before it |
| NoFollow.WalkIsChain | agent/files_linux.go:28-39 | over any changing file system, the walk succeeds if and only if no step met trouble and each directory, at the moment of its step, held the next node under its name, no symlink, and a directory where more follows |
| NoFollow.StaticWalk | agent/files_linux.go:17-41 | on an unchanging file system it answers the node the components name, fails exactly at a missing name, a symlink or a parent that is no directory, and reports absence exactly when the first such name is missing |
| NoFollow.AgreesWithFollow | agent/files_linux.go:9-16 | where it succeeds, a plain open that follows symlinks reaches the same node |
| ReadSlots.StepKeeps | agent/files.go:132-164 | every step of a request or of a read keeps slots, descriptors and releases in balance |
| ReadSlots.SlotsAndDescriptors | agent/files.go:132-164 | in every run the occupied slots are the admitted reads not yet finished, answered ones included, at most the cap; each finished read released once; the open descriptors are exactly those of running reads, at most two each |
| ReadSlots.AdmittedExactly | agent/files.go:132-137 | a request is admitted if and only if fewer than 64 reads are unfinished; it then adds one waiting read and takes one slot, and a refusal changes nothing |
| ReadSlots.AdmittedInRun | agent/files.go:132-137 | over a run, as many reads are admitted as arrivals met fewer than 64 unfinished ones |
| ReadSlots.AnsweredOnce | agent/files.go:154-164 | each request is answered at most once, with its posted read or without it, and no answer changes |
| ReadSlots.ReadsInFull | agent/files.go:149-153 | an admitted read can go well down a path of any length: answered with it, slot back, no descriptor left |
| ReadSlots.SlotComesBack | agent/files.go:143-153 | any unfinished read can end by its own steps, whatever the rest does, and then its slot and descriptors are free |
| BoundedRead.CeilOfThird | src/sandbox.ts:79 | however the double division rounds, its ceiling is that of the exact third |
| BoundedRead.ValidBudgetExactly | src/sandbox.ts:75-84 | a budget is accepted if and only if it is a whole number of bytes up to 3*(2^51 - 1) with a deadline a timer holds |
| BoundedRead.ValidBudgetPasses | agent/files.go:113-122 | an accepted budget never fails the agent's own checks, and any answer within it has a base64 size that is a safe integer and decodes to the same bytes |
| BoundedRead.GiveUpAfterTheAgent | src/channel.ts:672-674 | the client's timer is one that Node honours and never ends before the agent's deadline; without the clamp it would for exactly the last second of deadlines |
| BoundedRead.ReadBounded | agent/files.go:177-206 | success means the bytes up to end of file, each as it stood when read, within the budget, though the file grow after fstat; each refusal, a failing fstat among them, has its cause |
| BoundedRead.ReadSteady | agent/files.go:177-206 | an unchanging file is answered whole, exactly when it fits |
| BoundedRead.ReadAtMost | src/channel.ts:677-697 | the accumulator accepts a body exactly when all of it arrives and fits, and gives up exactly when some prefix does not |
| BoundedRead.ReadThrough | src/channel.ts:471-493 | both sides in turn: success is never a truncation, however the network cuts the answer or breaks it off, and on a quiet file an unbroken answer fails only when the file outgrew the budget |
| Decimal.ParseInt64Print | agent/files.go:113-122 | the agent reads a number the client prints exactly when it is an int64 |
| Decimal.ParseInt64Exactly | agent/files.go:113-122 | the agent takes digits after at most one sign, of a number that fits in 64 bits, and nothing else |
| BoundedRead.AgentAcceptsExactly | agent/files.go:113-122 | of the numbers that can be printed it accepts 0 to 2^53 - 1 bytes and deadlines of 1 to 2^31 - 1 ms, and no others |
| PortWait.WaitPort | agent/process.go:311-336 | probe by probe: the first at once, each next a pause after the end of the one before, all failing but for a last one that finds the port; the answer is what the last leaves, an exit or a "not open" only after its failure, the latter only past the deadline. At least one probe and at most ceil(D/50ms) + 1; over before D + 50 ms + the probe limit. And of the world: where from probe k on the port answers within h, the process lives, the caller stays and the patience covers k full probes and h, the answer is "open" by probe k |
| PortWait.OpenPortIsFound | agent/process.go:311-336 | such a port is not missed by any probe that could find it, nor given up on before |
| PortWait.ExitIsTold | agent/process.go:318-329 | an exit is answered with its own code, once it has happened and within a pause and a probe; "not open" only past the deadline and of a process that lives; of a port that never opens the exit by the deadline is told, else that it is closed |
| PortWait.CallerIsTold | agent/process.go:313-335 | "open" is of a port whose last probe was answered in time; only a caller who hangs up before the next probe gets no answer, and nobody is waited for after hanging up |
| PortWait.PatienceExactly | agent/process.go:311 | the deadline is the caller's timeout exactly within the range of 64-bit nanoseconds |
| PortWait.LongTimeoutWraps | agent/process.go:311 | a timeout beyond it that is a deadline in the past |
| PortWait.AbortAfterAnswer | src/channel.ts:585 | the client's abort leaves the agent time to answer if and only if timeout plus slack fits a timer |
| PortWait.WaitForPort | src/channel.ts:568-595 | for such timeouts the answer is there before the abort, on a network that takes under seven seconds; for larger ones it is lost whenever the first probe takes two milliseconds, and those no timer accepts give none |
| ProcStat.ZombiesOf | agent/reaper_linux.go:47-77 | the scanning loop, skipping what is no process, gone or malformed, lists the entries that read as zombies of the parent |
| ProcStat.StatLineReads | agent/reaper_linux.go:63-74 | the line of any process reads as its own state and parent, whatever its command name holds |
| ProcStat.ListingReads | agent/reaper_linux.go:47-77 | of any list of processes exactly the zombie children of the parent are listed, in order |
| ProcStat.NoiseIsSkipped | agent/reaper_linux.go:53-69 | an entry that is no pid, has gone or has no command name changes nothing, wherever it stands |
| Reaper.StepKeeps | agent/reaper_linux.go:26-44 | every fork, exit, Wait and sweep step keeps children, process table and sweep consistent |
| Reaper.NeverCompetes | agent/server.go:173-175 | in every interleaving the reaper collects no child the agent started, a reported status is the one the process exited with, and a stored child is still there for its Wait |
| Reaper.SweepCollectsAll | agent/reaper_linux.go:37-43 | at the end of a sweep every unowned zombie there was at its start is collected |
| Reaper.OrphanIsCollected | agent/reaper_linux.go:30-44 | an unowned zombie is collected by the reaper's own steps, in the sweep after the present one at the latest |
| Reaper.OrphanIsAdopted | agent/reaper_linux.go:13-22 | a detached process outlives its parent as a child of the agent, and is such a zombie when it ends |
| Reaper.DetachedIsCollected | agent/reaper_linux.go:13-22 | so whatever a command forks and leaves behind is collected once parent and child have ended |
| Reaper.ParentMayReap | agent/reaper_linux.go:13-22 | a parent that lives on may collect its child itself, and nothing is left for the reaper |
| Reaper.ExitIsReported | agent/process.go:86-98 | a stored child that exits can come to be reported with the status it exited with |
| Reaper.ChildIsStored | agent/process.go:86-87 | any free pid can be such a child |
| Reaper.ReportStays | agent/process.go:35-42 | a status once reported is reported for ever |
| Reaper.AssumptionIsExact | agent/process.go:77-98 | from a state in order, a step is not an exit between fork and store if and only if no continuation without such an exit has the reaper collect a child the agent started |
| Reaper.EarlyExitIsStolen | agent/process.go:86-98 | a child that is a zombie before its pid is stored can be collected by the reaper; its Wait then fails and -1 is reported for ever, whatever its status was |
| Lookout.ListActive | src/armada.ts:436-465 | the page loop ends, on exact multiples of the page size too, having taken every job once |
| Lookout.GatheredComplete | src/armada.ts:445-464 | one entry for each named set with a job in a named queue, in first-occurrence order, as the last such job has it |
| Lookout.ListedExactly | src/armada.ts:445-464 | an id is listed exactly when some job names it and a queue, and no entry lacks either |
| Lookout.OneEntryEach | src/armada.ts:443-445 | no sandbox is listed twice |
| Lookout.RememberActive | src/provider.ts:54-58 | each listed sandbox is remembered in its job's queue, and nothing else of the memory changes |
| EventStreams.WaitForRunning | src/armada.ts:217-246 | the loop's outcome is that of the first decisive item |
| EventStreams.IngressAddress | src/armada.ts:274-305 | the loop's outcome is that of the first decisive item |
| EventStreams.RunningExactly | src/armada.ts:217-246 | that outcome, from the events: the pod of the first running event of the job, each part of it in its place, unless the stream or the job ended before, and then why |
| EventStreams.AddressExactly | src/armada.ts:274-305 | the port's address in the first address event of the job, or its absence, unless the stream or the job ended before |
| EventStreams.StutterInsensitive | src/armada.ts:217-305 | streams that differ only in events of other jobs, empty messages and retryable failures have the same outcome, for both readers |
| EventStreams.FirstDecisiveStands | src/armada.ts:217-246 | in a stream without end the first decisive item settles the outcome, and reading on changes nothing |
| EventStreams.SameFailure | src/armada.ts:217-305 | where neither pod nor address is announced, both readers fail for the same reason |
| GpuProfiles.ProfileGpuTypes | src/config.ts:522-534 | the nested loops collect the types of all entries of all profiles |
| Text.UpperExactly | src/config.ts:531 | each small letter becomes its capital and nothing else changes |
| GpuProfiles.SettingReads | src/config.ts:527-531 | one printed setting reads as its upper-cased type, or as none when its key is another |
| GpuProfiles.PrintedTypes | src/config.ts:522-534 | it inverts the printing of every well-formed profile list, white space included |
| GpuProfiles.ReadLabels | src/config.ts:436-447 | a selector is accepted exactly when it is an object of labels with string values that are not blank, of which one at least is kept |
| GpuProfiles.ReadGpuNodeSelectors | src/config.ts:418-453 | the variable is accepted exactly when it names a type and every selector is in order |
| GpuProfiles.SelectorsExactly | src/config.ts:446-448 | each type, in whatever case, maps to the labels of its last entry, and no other type does |
| GpuProfiles.PlacedExactly | src/podspec.ts:95-108 | a pod that asks for a GPU gets exactly the kept labels of the last entry of its type, is refused when no entry is of its type, and may go anywhere without a GPU |
| GpuProfiles.GpuCheck | src/config.ts:615-626 | startup passes exactly when no selectors are set or every type of both lists has one |
| GpuProfiles.RequestedType | src/podspec.ts:68-71 | a request with or without a count is for the type its setting named |
| GpuProfiles.AcceptedProfilesPlace | src/podspec.ts:95-108 | with selectors set, startup accepts two lists if and only if every GPU request of every profile in them finds a selector |

## Left out

- Ndjson.ReadNdjson: cancelling the connection when a consumer stops early is not modelled; the values before that are those of the prefix that arrived.
- Json.ParsePrintObject: covers flat objects of strings, integers and `true`, which is what events are; other JSON values are a parameter of the readers.
- ExecEvents.ParsePrintEvent: strings are Unicode scalar values, so lone surrogates, which JavaScript strings can hold, do not occur. Nor do fields of another type than the agent gives them: a `stdout` that is a number reads as absent here, where the client would throw.
- PlacementHome.StepKeeps: instances, memory and cache are values of a state, not objects, since their methods interleave at awaits; the directory is also a class, in Queues. The pod spec and its failures, and `portUrl`'s scheme, are left out.
- PlacementHome.OneJobPerSandbox: holds under the assumptions above; overlapping calls on one instance, several adapter processes and a lagging Lookout are excluded, as the code does not coordinate them.
- NoFollow.OpenNoFollow: descriptors are never renumbered, and permission, table limits and sockets are one failure of the moment.
- BoundedRead.ReadThrough: an answer that HTTP does not deliver whole is assumed to be one whose reading fails.
- BoundedRead.ReadBounded: the growing buffer is only what room it offers each read.
- Queues.PlacedProperly: what a member that is no string does further on, in a request for instance, is not modelled; it is taken as one more queue.
- PortWait.WaitPort: only probes and pauses take time; timeouts are whole milliseconds.
- Reaper.NeverCompetes: `SIGCHLD` and the ticker only say when a sweep starts, and a sweep may start at any time here.
- Lookout.ListActive: the list is a snapshot that does not change between pages.
- EventStreams.WaitForRunning: an item that is JSON `null` inside a line, and the timeout's length, are not modelled; a timeout is a stream that breaks.
- GpuProfiles.PrintedTypes: upper case is that of ASCII.
- `findJob` and `findQueue` beyond their answers, `submit`'s request body, `toFileInfos`, `listEntries`, `quantities` and `exposedPorts`: single loops or expressions that would add only easy members.
- `killGroup`, `signalProcess` and `shutdown`: one timer, one signal and one polling loop.
- HTTP, headers, status codes, authorization, TLS and the wording of errors.
- Cryptography: the agent's token is an uninterpreted function of the sandbox id.
- The rest of `readConfig` and of the pod spec: single-branch checks.
- Plain `readFile` and `writeFile`, `install`, process logs and status: thin wrappers.
