# A verified model of the transcription pipeline

The repository is a Go service that accepts audio (an upload, or a URL to fetch it from), queues a
job in a Redis stream, and feeds one Whisper server from a pool of workers. A claimer takes over
messages whose worker seems to have died, uploaded audio lives only in the memory of the process,
and an optional daily window says when work may be done.

The project models that pipeline in Dafny and proves what it promises, and where a promise needs
an assumption it proves exactly what happens without it.

## How the model is built

- `Jobs`, `Redis`, `Pipeline`: the pipeline as a step machine. The state is the stream with its
  consumer group, the job hashes with their deadlines, the audio store, the HTTP requests inside the
  enqueue call, the live message handlers, the claimer's batch and the capacity-one gate. One step is
  one Redis call (or one MULTI pipeline), one locked section of the audio store, one gate operation,
  or a move of the environment: time passing and keys running out, the shutdown signal, a crash with
  restart. Steps of different actors interleave freely. Every Redis call may work, never reach Redis,
  or take effect with its reply lost.
- `Runs`: runs of the machine and the assumptions ("policies") some results are stated under. A
  result over `Any` assumes nothing.
- `Accounting`, `Concurrency`, `Admission`, `Loss`, `Lifecycle`, `Timing`, `Clips`, `Drain`: theorems
  over all runs. `Races`: concrete runs that show what fails without an assumption. `Expiry`: what
  changes when records run out before their message can be claimed. `Stealing`: the runs that keep a
  worker at work for as long as any settings allow, and the exact conditions on the settings that
  follow.
- `RedisStore`, `AudioStore`, `Whisper`, `Pool`, `Front`: the Go code as classes and loops. The
  store's methods, command by command, are proved to be the atomic transactions the machine uses. The
  handler, the worker's and the claimer's turn, and the two HTTP handlers are proved to take the
  machine's steps in the machine's order, with the same effect on Redis and on the audio store.
  `Handling`: what a handler leaves in Redis and sends to the upstream, as a function of what it is
  given and then field by field; the methods of `Pool` are proved to do exactly that.
- `ByteGuards`, `Window`, `WindowText`, `WindowIdle`: the two byte limits, and the window with the
  loop that idles around it.

The links between the two halves: `Pool.Pool.InStep` and `Front.Front.InStep` say that a run of the
machine leads to a state that agrees with the mutable Redis and audio store, and every method keeps
them; `Whisper.MachineRetriesLikeLoop` equates the machine's retries with the retry loop.

## Assumptions

- A Redis call or MULTI pipeline is atomic, a key is gone from its deadline on, the process and Redis
  read one clock, and job ids never repeat.
- A call made after the shutdown signal does not reach Redis. Requests are not cancelled by it.
- One process with restarts: Redis keeps everything, memory nothing (README.md:35-39 of the
  repository asks for one instance for uploads).
- The window's zone is a fixed distance from UTC.
- Only where a statement says so: fail-stop (once a Redis call of a handler has failed its later ones
  do not reach Redis), exclusive ownership (no claim under a live handler), timeouts honoured with a
  first-come gate and Redis calls that take no time, at most k requests in the enqueue call, no new
  requests and no failures.

## Where the code and its own description differ

The model follows the code.

- The enqueue is described as atomic (internal/redisstore/store.go:73-76), but the length check is a
  call of its own. Racing requests can exceed the cap: `Admission.BoundAttained`,
  `Admission.CapHoldsIffSerial`.
- Delivery is described as at-least-once (README.md:24-26 of the repository), but a handler whose
  write failed acknowledges all the same (internal/worker/pool.go:168-173, 210-213, 264-276).
  `Loss.LostExactly` says which step loses a job, `Races.AJobCanBeLost` gives a run.
- Claims are described as reclaiming from dead or stuck workers, but the idle time is 2 minutes
  while one download may take 600 seconds: `Races.ShippedSettingsAllowStealing`. For which settings
  claims stay away from live workers is `Stealing.NeverStealsIff`.
- The status line "queued, processing, completed or failed" (README.md:57) can go backwards:
  `Races.ShippedJobRegresses`. `Lifecycle.RegressesExactly` says by which steps, on any run, and
  `Stealing.NeverRegressesIff` for which settings.
- A queued record can run out while the window is closed: `WindowIdle.SurvivesIffTtlIsLonger`.
- With the byte limit within a mebibyte of the largest int64 the upload's cap wraps around, and at
  the largest int64 the download returns an empty body: `ByteGuards.UploadIsGuardIff`,
  `ByteGuards.DownloadIsGuardIff`.

## Model

| member | source | states |
|---|---|---|
| Loss.NoAcceptedJobIsLost | internal/worker/pool.go:159-219 | at-least-once: on every fail-stop run, with any interleaving, duplicate claims and crashes, a job that was enqueued and whose record never ran out has its message in the stream or its end on record |
| Loss.LostExactly | internal/worker/pool.go:166-276 | with no assumption, a step loses a job if and only if it is an ack that reaches Redis from a handler that saw an earlier Redis call fail, while the end of the job is not on record |
| Loss.OnlyAckRemoves | internal/redisstore/store.go:204-214 | whatever anybody does, an entry leaves the stream only by an applied ack of the handler that has it |
| Races.AJobCanBeLost | internal/worker/pool.go:210-213 | a run, for every usable configuration, in which a job is neither in the stream nor ended: the no-loss law needs its assumption |
| Accounting.StreamAccounting | internal/redisstore/store.go:168-219 | in every reachable state the stream is the disjoint union of queued entries and the pending list, XLEN is their sum, and reads hand out each entry they pass exactly once |
| Accounting.WorkFrame | internal/worker/pool.go:159-276 | what no step of a handler touches: other handlers, requests, the batch, the log of messages, and all of the stream but its own entry |
| Lifecycle.StatusOnlyMovesForward | internal/worker/pool.go:166-213 | under exclusive ownership, across crashes and redeliveries, every step keeps a record, moves it to processing or to its end, or lets it run out; a result and an error are never both there, and the request's own fields never change |
| Lifecycle.EndIsFrozen | internal/worker/pool.go:173-176 | under exclusive ownership a completed or failed record is the same until it runs out |
| Lifecycle.RegressesExactly | internal/redisstore/store.go:128-160 | with no assumption, a step takes a record backwards if and only if it is a write that reaches Redis from a handler of the job, after the record has ended, and that changes it |
| Lifecycle.MixesExactly | internal/redisstore/store.go:133-149 | with no assumption, a record comes to hold a result and an error if and only if a result reaches a record with an error, or an error one with a result |
| Timing.BudgetClosed | internal/worker/pool.go:22-31 | the budget of a handler in terms of the settings: download, one gate turn per attempt, the whole backoff |
| Timing.LifeIsBudgeted | internal/worker/pool.go:159-262 | on every timely run no handler lives longer than the budget |
| Timing.TimedRunsAreExclusive | internal/worker/pool.go:143-262 | if downloadTimeout + (maxRetries+1)(concurrency+1) upstreamTimeout + total backoff < claimMinIdle, then on every run that honours the timeouts nothing is claimed under a live handler |
| Timing.TimedEndIsFrozen | internal/worker/pool.go:173-176 | on such settings an ended record is frozen with no assumption about ownership left |
| Stealing.NeverStealsIff | internal/worker/pool.go:143-262 | for every time to live and all timeouts that are set: no timely run claims a message under a live handler if and only if the handler's budget is below the claim's idle time; where no record outlives that time the budget has one gate turn fewer per attempt, and where records have no time to live none ever does |
| Stealing.NeverRegressesIff | internal/worker/pool.go:166-213 | no timely run takes a record backwards if and only if the budget is below the claim's idle time, or no record outlives that time |
| Stealing.NeverMixesIff | internal/worker/pool.go:205-213 | no timely run leaves a result and an error in one record if and only if the budget is below the claim's idle time, or no record outlives that time |
| Stealing.CaughtIsReachable | internal/worker/pool.go:240-262 | the budget is attained: for every idle time up to it, below the records' time to live, a timely run keeps a worker at work for exactly that long, with its claimer free and its message the one that is due |
| Stealing.ShortCaughtIsReachable | internal/worker/pool.go:240-262 | so is the smaller budget, for records that do not outlive the idle time |
| Expiry.ShortRunsAreExclusive | internal/worker/pool.go:143-177 | where no record outlives the idle time, the smaller budget is enough to keep claims away from live handlers |
| Expiry.ShortRecordsNeverRegress | internal/worker/pool.go:166-177 | there the claimer finds every job it gets gone or ended, so no timely run takes a record backwards, however long the workers take |
| Races.ShippedSettingsAllowStealing | internal/config/config.go:60-65 | the shipped settings are such |
| Races.StolenJobRegresses | internal/worker/pool.go:178-213 | where one download may outlast the idle time, a timely run takes a record from completed to processing to failed, ending with a result and an error |
| Races.ShippedJobRegresses | internal/config/config.go:60-65 | with the shipped settings such a run exists |
| Drain.DrainIsBounded | internal/worker/pool.go:92-262 | without arrivals and failures, each step but the passing of time lowers the work left (queued, pending and claimed messages, handler positions, attempts left), so a run has at most that many steps |
| Drain.NeverStuck | internal/worker/pool.go:92-154 | while anything is left somebody can take a step, at the latest when a pending message has been idle long enough to be claimed |
| Drain.MaximalCalmRunDrains | internal/worker/pool.go:92-154 | after any history, such a run that cannot go on has emptied the stream, with no handler and no claimed message left |
| Drain.CanDrain | internal/worker/pool.go:92-154 | a run that drains exists from every sound state |
| Drain.DrainedJobsHaveEnded | internal/worker/pool.go:173-213 | with no failed call and no crash in the whole history, duplicate claims included, each job left in a drained pipeline is completed or failed |
| Drain.DrainedJobsAreRecorded | internal/worker/pool.go:159-276 | after any fail-stop history, a maximal calm run ends with the end of every unexpired job on record |
| Drain.DrainedJobsHaveEndedOrderly | internal/worker/pool.go:159-276 | under fail-stop and exclusive ownership together, crashes and redeliveries included, it ends with every unexpired job completed or failed |
| Concurrency.ConcurrencyBounds | internal/whisper/client.go:87-115 | on every run exactly the handler inside the upstream call holds the gate, inFlight is the number of live handlers and at most concurrency + 1, and a message has at most two live handlers, at most one of them a worker |
| Admission.AdmissionBound | internal/redisstore/store.go:77-104 | with at most k requests in the enqueue call, entries plus requests past the check are at most queueSize - 1 + k |
| Admission.BoundAttained | internal/redisstore/store.go:77-104 | for every cap and every k a run attains that bound |
| Admission.CapHoldsIffSerial | internal/redisstore/store.go:73-104 | the configured cap holds on all runs if and only if requests enter one at a time |
| Clips.ClipsHaveOneOwner | internal/audio/store.go:31-59 | on every run, with duplicate handlers and rollbacks racing workers, a live clip is in the store under one job, or with one request, or with one handler; an upload being sent has not been zeroed by anybody |
| Clips.NoClipLeaks | internal/server/server.go:229-237 | each stored clip belongs to a stream entry, a request between Put and the end of its enqueue or rollback, or a live handler; the store is no larger than these and an idle pipeline holds none |
| Clips.AudioReadyOnFirstUse | internal/server/server.go:229-235 | an accepted upload has its clip in the store while queued and until the first handler asks, who gets it |
| Clips.TakenAtMostOnce | internal/audio/store.go:41-47 | over a whole run at most one Take of a clip succeeds |
| Pool.Pool.Handle | internal/worker/pool.go:159-219 | one message end to end on the mutable stores is a run of the machine's handler: afterwards the handler is gone and counted out, the job has nothing in the audio store, and the clip it had there is cleared; if it was unfinished and the write got through, its record shows completed with the body of the first answer that is not retryable if that is a 200, failed as rejected if it is another, failed as exhausted if there is none, or why there was no audio; the attempts sent are those up to that answer, with the job's own audio and language; and the message is gone exactly when the ack got through |
| Handling.ServedTells | internal/worker/pool.go:166-213 | what a handler leaves of every record, whatever became of its calls: its own one as under Handle with all other fields kept, or just marked, or as it was; all others untouched |
| Handling.ServedClears | internal/worker/pool.go:168-213 | on every path one ack, of the handler's own message: entry and pending row are gone exactly when it got through, and nothing else in the stream or the group has changed |
| Handling.SentSpeaks | internal/worker/pool.go:184-196 | what is sent: the attempts up to the first answer that is not retryable, each with the stored or the downloaded bytes and the record's language, or the default if it has none; nothing when there is no audio or nothing to do |
| Handling.BatchTells | internal/worker/pool.go:148-151 | in a claimed batch each message that is the only one of its job comes to what it would come to alone |
| Handling.BatchClears | internal/worker/pool.go:148-151 | of a batch exactly the messages whose ack got through leave the stream and the group |
| Pool.Pool.Serve | internal/worker/pool.go:168-219 | a job that cannot be read, is missing or has ended is acknowledged and nothing else is done; any other is processed; either way Redis and the upstream see exactly what Handling.Served and SentFor say |
| Pool.Pool.Process | internal/worker/pool.go:178-219 | from the mark to the ack, in step with the machine: what is stored is the verdict on the audio that was fetched and sent, and that audio is cleared, or was never taken |
| Pool.Pool.GetAudio | internal/worker/pool.go:223-238 | an upload takes its very clip, with its bytes, out of the store, or the audio is gone; a URL job gets what was downloaded, in a buffer of its own, or the download has failed, and leaves the store alone; an unknown source fails as such |
| Pool.Pool.FetchAudio | internal/worker/pool.go:223-238 | the same in step with the machine |
| Pool.Pool.Transcribe | internal/worker/pool.go:196-203 | the bytes in hand are what every attempt carries; the verdict is that of the first decisive attempt, the gate is free again, and the audio is cleared before Redis is touched |
| Pool.Pool.Persist | internal/worker/pool.go:205-213 | the outcome is written and the message acknowledged, in this order, whether or not the write works |
| Pool.Pool.Fail | internal/worker/pool.go:264-270 | a failure is written, then the message acknowledged |
| Pool.Pool.Ack | internal/worker/pool.go:272-276 | the ack is the machine's, applied or not |
| Pool.Pool.Finish | internal/worker/pool.go:160-163 | the deferred calls: whatever clip is left for the job is removed and cleared, and the handler is counted out |
| Pool.Pool.ReadOne | internal/worker/pool.go:117-125 | the worker gets a message exactly when the read is answered and an entry lies past the group's position; it is the oldest such entry, now pending for the worker; a read that finds nothing or fails to reach Redis changes nothing |
| Pool.Pool.Turn | internal/worker/pool.go:117-128 | a worker's turn has a message exactly when ReadOne has one, and then has handled it as Handle does; the machine keeps step and the worker is free again |
| Pool.Pool.HandleBatch | internal/worker/pool.go:148-151 | claimed messages are handled one after another, each as Handle does on what the ones before it left; exactly those whose ack got through leave the stream, and none of their clips stays in the store |
| Pool.Pool.ClaimTurn | internal/worker/pool.go:143-151 | a claimer's turn claims exactly what the claim answers with, every due row among the first ones up to the count, and handles each of them; when the reply is lost the rows have changed owner and none is handled; when the call is refused nothing has changed |
| Pool.ClaimedAreAlone | internal/worker/pool.go:143-151 | in every reachable state the messages of a claim are of different jobs |
| Pool.AttemptsRun | internal/worker/pool.go:240-262 | the machine's attempts of a handler end in the verdict of the retry loop |
| Front.Front.HandleUpload | internal/server/server.go:226-241 | the clip is put into the store before the enqueue begins; it stays, untouched, exactly when the enqueue reports no error, else it is taken out and cleared; accepted exactly when the cap left room and both calls worked; an enqueue that got through adds one entry and a queued record with the request's own source and language |
| Front.Front.HandleURL | internal/server/server.go:260-271 | the same enqueue, with nothing to undo; the record has the request's own URL and language |
| Front.Front.Queue | internal/redisstore/store.go:77-104 | the enqueue call is the machine's length check followed, if it passes, by its transaction |
| Front.Front.Discard | internal/server/server.go:234-236 | the rollback removes the job's clip and clears its buffer |
| RedisStore.Store.CreateAndEnqueue | internal/redisstore/store.go:77-104 | full exactly when XLEN answers with at least the cap; then, or when XLEN fails, nothing is written; else HSET, EXPIRE and XADD are one transaction that adds one entry nobody has been handed and writes the job's fields over what the key held |
| RedisStore.Store.Get | internal/redisstore/store.go:106-126 | not found exactly when the key is absent |
| RedisStore.Store.Update | internal/redisstore/store.go:151-160 | HSET and EXPIRE are one transaction: the fields written replace the old ones, the others stay, the deadline is renewed |
| RedisStore.Store.SetProcessing | internal/redisstore/store.go:128-131 | the status becomes processing, every other field of the record stays, the deadline is renewed, and nothing else changes |
| RedisStore.Store.SetCompleted | internal/redisstore/store.go:133-140 | the status becomes completed, the result the body given, the completion time the one given, every other field stays, the deadline is renewed, and nothing else changes |
| RedisStore.Store.SetFailed | internal/redisstore/store.go:142-149 | the same with failed and the cause |
| RedisStore.ResultIsReadBack | internal/redisstore/store.go:106-140 | what SetCompleted stores is what Get returns |
| RedisStore.FailureIsReadBack | internal/redisstore/store.go:106-149 | what SetFailed stores is what Get returns |
| RedisStore.Store.Read | internal/redisstore/store.go:168-184 | at most one message, one exactly when there is an entry past the group's position, the oldest such, now pending for the consumer |
| RedisStore.Store.Claim | internal/redisstore/store.go:186-202 | the rows XAUTOCLAIM takes, no others: the lowest ones idle for the minimum, up to the count, among the first ten times the count; they change owner and their idle time restarts |
| RedisStore.Walk | internal/redisstore/store.go:189-202 | the row by row walk from the start of the pending list takes exactly those |
| RedisStore.ClaimIsDetermined | internal/redisstore/store.go:189-202 | a claim has one answer, in the step machine too |
| RedisStore.Store.Ack | internal/redisstore/store.go:204-214 | XACK and XDEL are one transaction |
| AudioStore.Store.Put | internal/audio/store.go:31-36 | the clip is stored under the job, every other clip and buffer unchanged |
| AudioStore.Store.Take | internal/audio/store.go:38-47 | hands over the very clip that was put, bytes untouched, and nothing left in the store shares it |
| AudioStore.Store.Drop | internal/audio/store.go:49-59 | removes the job's clip and clears its buffer; no other buffer changes |
| AudioStore.Zero | internal/audio/store.go:68-78 | every byte of the buffer is zero and the clip lets go of it |
| AudioStore.DuplicateHandlers | internal/audio/store.go:38-59 | after one handler took the clip, a second one's Take and Drop leave its bytes alone |
| Whisper.Client.Transcribe | internal/whisper/client.go:61-116 | the gate is free on return whatever happened; a call cancelled at the gate never reaches the upstream; a result exactly for status 200, retryable exactly without an answer or from status 500 up, final with its status for any other; a reported body is whole up to 4096 characters and its first 4096 beyond |
| Whisper.TranscribeWithRetry | internal/worker/pool.go:240-262 | the loop goes on exactly while attempts are left, the last one was retryable and the sleep before the next runs to its end; the last attempt made gives the verdict; every attempt carries the same audio and language; k retries slept 2^k - 1 base delays |
| Whisper.TranscribeToTheEnd | internal/worker/pool.go:240-262 | an uncancelled loop ends with the first attempt that is not retryable, completed with its body for a 200 and rejected for any other, or exhausted after all of them; nothing is sent after it |
| Whisper.UsedAre | internal/worker/pool.go:244-260 | the attempts of an uncancelled loop are those up to the first that is not retryable, or all |
| Whisper.DecidedBy | internal/worker/pool.go:252-258 | the first attempt that was answered below 500 decides: a 200 is a result with its body, anything else a rejection |
| Whisper.DecidedAt | internal/worker/pool.go:248-258 | the verdict of a list of outcomes is that of the first one that is not retryable |
| Whisper.BackedClosed | internal/worker/pool.go:244-245 | the delays base << (attempt - 1) add up to base (2^n - 1) |
| Whisper.MachineRetriesLikeLoop | internal/worker/pool.go:242-262 | the step machine's retries give the loop's verdict, from any attempt on |
| ByteGuards.Upload | internal/server/server.go:183-224 | for every body, chunking and declared size: accepted whole and unchanged exactly when no longer than the limit, the form within its cap; at most limit + 32 KiB held |
| ByteGuards.Download | internal/worker/download.go:38-54 | for every body and chunking, and any advertised length that is not over the limit, the result is that of the limited reader; at most limit + 1 bytes kept |
| ByteGuards.UploadIsGuardIff | internal/server/server.go:183-187 | the form's cap takes nothing away, for all bodies, if and only if the framing fits the extra mebibyte and the cap does not overflow |
| ByteGuards.DownloadIsGuardIff | internal/worker/download.go:46-52 | the limited reader loses nothing of any body within the limit, and refuses every other, if and only if the limit is below the largest int64 |
| ByteGuards.GuardsAgree | internal/server/server.go:201-224 | uploads and downloads apply the same limit to every body, wherever neither cap overflows |
| Window.OpenIsCircular | internal/window/window.go:82-93 | open exactly when (m - start) mod 1440 < (end - start) mod 1440, and exactly in the first stretch after the opening, wrapping midnight or not |
| Window.NextOpenIsLeast | internal/window/window.go:95-119 | NextOpen is the least wait, to the nanosecond, after which the window is open; zero exactly when it is open |
| Window.NextOpenIsUnique | internal/window/window.go:95-119 | no other wait has these properties |
| Window.LongestWait | internal/window/window.go:95-119 | no wait exceeds the closed part of the day, and the wait from the closing edge is that long |
| WindowText.ParsedWindowsAreValid | internal/window/window.go:24-60 | a parsed window meets what the arithmetic relies on, and is disabled exactly when both texts are blank |
| WindowText.BoundsMissing | internal/window/window.go:29-36 | disabled exactly when both texts are blank, refused for one missing bound exactly when one of them is |
| WindowText.ClocksParse | internal/window/window.go:29-60 | what two clock texts come to, with numbers in range or not, any spaces around them, known or unknown zone; an empty zone is UTC |
| WindowText.ClockSplits | internal/window/window.go:62-77 | a clock is split at its first colon and is the hours times 60 plus the minutes when both parts are numbers in range, else refused |
| WindowText.ClockRoundTrip | internal/window/window.go:62-77 | a time written as HH:MM is read back |
| WindowText.ParseRoundTrip | internal/window/window.go:24-60 | two different times and a known zone give the window that opens at the first and closes at the second |
| WindowIdle.IdleUntilOpen | internal/worker/pool.go:280-286 | with exact timers the worker naps to exactly the opening edge, in ceil(wait / poll) naps, never through an open instant |
| WindowIdle.NapAfterDrift | internal/worker/pool.go:101-109 | if the clock moved, either way, between the check and the nap, waking is at most one poll after the second reading, no open instant is slept through from a closed one, and the edge is not passed while it lies ahead |
| WindowIdle.Consume | internal/worker/pool.go:92-128 | for the clock readings in order the loop reads once where the window was open and naps once, for the time the window gives, where it was not; its pausing and resuming lines alternate |
| WindowIdle.ClaimTicks | internal/worker/pool.go:138-142 | the claimer claims exactly for the ticks at which the window was open |
| WindowIdle.SurvivesIffTtlIsLonger | internal/redisstore/store.go:92-97 | a queued record is there at the opening for every enqueue instant if and only if the time to live is longer than the closed part of the day |

## Left out

- Pool.Pool.Handle: follows a handler that nobody cancels and that is alone at the gate, with the outcomes of its calls as inputs; cancellation, crashes and interleaving are in the step machine only. The heap's clips and the machine's are tied by job, not by a map from clip ids to objects.
- Pool.Pool.Process: as Handle.
- Pool.Pool.Transcribe: as Handle; cancelled attempts and sleeps are in Whisper.TranscribeWithRetry.
- Pool.Pool.Turn: as Handle, so it asks for a free gate; reading alone (ReadOne) does not.
- Pool.AttemptsRun: a handler alone at the gate; handlers that share it are in the step machine.
- Pool.Pool.GetAudio: a download is its bytes or a failure; what it reads and refuses is ByteGuards.Download. File names are not modelled.
- Pool.Pool.FetchAudio: as GetAudio.
- Pool.Pool.HandleBatch: as Handle, for the claimer. Field by field it speaks of jobs with one message in the batch, which in a reachable state are all of them (Pool.ClaimedAreAlone).
- Pool.Pool.ClaimTurn: as HandleBatch.
- RedisStore.Store.CreateAndEnqueue: nobody else acts between its two calls here; in the step machine anybody may.
- AudioStore.Store.Put: asks for a clip that is not in the store yet, since the server makes a new one for each upload.
- AudioStore.DuplicateHandlers: one order of the two handlers' calls; all orders are in the step machine.
- Whisper.Client.Transcribe: building the multipart body and the request is taken to succeed, contexts and bodies are reduced to the way the attempt ends, and waiting at a busy gate is in the step machine.
- Stealing.NeverStealsIff: an upstream timeout of zero, which means none, is not among the settings. Timely runs may claim and read at any instant; the claimer's ticks, 30 seconds apart, and the second's pause after a failed read are not in them.
- Drain.NeverStuck: liveness is stated as bounded runs that cannot stop early; no scheduler fairness is modelled.
- WindowIdle.Consume: the window samples are inputs of a loop of its own, without read failures or cancellation; the step machine reads and claims at any time, which covers every window.
- Routing, authentication, JSON, access logging, health figures: wrappers with one-branch claims.
- The Redis wire protocol, blocking reads, group creation and the rounding of time to live by the client library: each call is done, refused, or done with its reply lost.
- Error texts, file names, the server's own default for an absent language and the RFC 3339 rendering of times.
- Environment parsing: only the validated bounds on the settings are used.
- Time zones with offset changes: the exact-edge claim about NextOpen does not hold across one.
- Integer width in the window and in the backoff shift: both stay far below 63 bits for the shipped constants.
- Several instances, garbage collection, copies of the audio inside request bodies, and the Whisper engine.
