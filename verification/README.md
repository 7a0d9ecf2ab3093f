# dredd: the VM pool, the job protocol and the execution path

dredd runs untrusted programs in Firecracker MicroVMs. A client posts a job; the job waits in a Redis
list; a worker takes it, borrows a VM from a pool, sends one request to the agent inside the VM over
vsock, and writes the results back to Redis, where the client polls for them. This project models that
path in Dafny and proves what the code relies on.

## Layout

| modules | models |
|---|---|
| `PoolProtocol`, `PoolObject` | the three pool strategies, `Driver.Boot`/`Kill`, the boot semaphore and `Executor.Execute`, as one protocol of interleaved atomic steps with a program counter per refill, per request and for `Close`; the class `Pool` runs the code between two accesses to shared state and is proved to take exactly one protocol step |
| `PoolAccounting`, `PoolInvariant`, `PoolRuns` | sums over threads, the conservation laws, and the invariant of every reachable state |
| `PoolLaws` | what each operation of the pool does, in its caller's terms, with its exact conditions |
| `PoolTheorems`, `PoolFootprint`, `PoolLiveness`, `PoolSupply` | what the pool promises: no panic, conservation of slots, single-use VMs, nothing left alive, a bound on live VMs, termination of `Close`, warm-up, the nil VM, lost slots and when a waiting request can be served |
| `Wire`, `Proto`, `JsonModel`, `Duration`, `Guest`, `Exchange`, `Budget` | connection, handshake, frames, messages, the guest agent, one exchange, and the host's time budget |
| `Decimal`, `JobStore`, `Langs` | decimal integers, job hashes and the queue, the language registry |
| `JobProtocol`, `JobInvariant`, `JobTheorems`, `JobLiveness`, `Worker` | any number of workers and clients over the shared store, and `worker.process` as code |
| `Flaky`, `EndToEnd` | the retry arithmetic, and the theorem from admission to the polled answer |

The step functions (`PoolProtocol.Move`, `PoolProtocol.CloseMove`, `JobProtocol.Apply`) are the
specification; the classes `Pool`, `Queue`, `Registry`, `Conn`, `CappedBuffer` and `FlakyExecutor` are
the mutable objects of the source, proved against it.

The three pool strategies are instances of one protocol, chosen by `Config.strategy`. `Generic` has the
single channel `"generic"`; `Spare` has capacity one and, instead of waiting on an empty channel, boots
cold under the request's context, outside the WaitGroup.

## Assumptions

- **Steps.** One step crosses one access to shared state. A select with several ready cases may take any
  of them. An HTTP call of `Boot` made under a cancelled context fails; one that succeeds is placed at the
  moment it was issued. Waiting for the API socket and cloning the rootfs may succeed under a cancelled
  context, as in the code.
- **Pool.** `PoolSize` is at least one and the registry's ids are distinct (`Config.Valid`;
  `Langs.TableAgrees` gives the latter). `Close` is called once.
- **Redis.** A command, or a MULTI/EXEC pipeline, takes effect or fails without effect. Enqueued ids are
  non-empty and fresh. A key with an expiry may vanish at any later moment.
- **JSON.** A codec with `dec(enc(x)) == norm(x)`, an idempotent text normalisation that keeps empty
  texts empty and others non-empty, and `omitempty` results (`Proto.Json.Lawful`).
  `JsonModel.LawfulJsonExists` shows the laws can be met.
- **Calls.** A worker's call of Execute may or may not return; the results that need it to return say so
  (`hung` in `JobLiveness`), and the others hold either way.
- **Programs.** One run of a program is an oracle: the chunks it writes, how it ended, whether the limit
  fired, and how long it took. An exit status that is reported as an error is not zero. The
  budget results take each run to keep its timeout, and state where int64 nanoseconds would overflow.

## Where the code and its stated intent part

- `Acquire` may return a nil VM with a nil error: it passed its `closed` check, and `Close` closed the
  channel before the receive. `PoolTheorems.NilOnlyAcrossClose` says exactly when,
  `PoolLiveness.NilVmRun` gives the run. `Executor.exchange` then dereferences nil.
- A slot whose refill failed to boot is never filled again. `PoolSupply.LostSlotRun` is a run in which one
  failed boot leaves an open pool unable to serve; `ServableIff` says exactly when a waiting Acquire can
  still be served. A refill that has failed but not yet ended counts as lost already.
- A worker can wait for ever. `worker.go` calls Execute under the worker's own context, which has no
  deadline; in an open prewarmed pool whose slots are all gone the call never returns until shutdown
  (`PoolSupply.HangsIff`, and `LostSlotRun` for such a pool). `JobLiveness.JobsProgress` and
  `RestIsReachable` say exactly what still works given the calls that never return, and
  `JobLiveness.StuckWorkerRun` shows a single worker lost that way.
- The comment at `worker/worker.go:91-93` says a job whose `Load` failed will be re-dequeued. It has
  already been popped, so it will not: it stays as it was (`JobTheorems.EachIdOnce`, `FaultedIff`,
  `QuietMeansDone`; `JobLiveness.GivenUpRun` is such a run).
- The host's deadline covers a compile step only when three time limits fit in the grace
  (`Budget.BudgetCovers`); otherwise a well-behaved guest can be cut off (`Budget.GuestCutOff`).
- `agent/proto.go:50-52` promises exactly one of the compile error and the results. A compile step that
  fails without output gives neither, and the job reads as done with no results (`Guest.ExactlyOneAnswer`;
  `Guest.NeitherAnswer` builds such a guest for any request).
- The guest does not bound the frame it writes, and truncates its length to 32 bits. An oversized response
  is refused by the host if and only if its length modulo 2^32 is not a valid frame length
  (`Wire.BadFrameRefused`); otherwise it is cut short unnoticed (`Wire.HugeFrameCut`).
- The guest's agent errors "compile:" and "exec:" need a failed run with exit code 0, which `runOnce`
  never reports (`Guest.HandleRequest` equals `Guest.Handle`, which lacks them).
- After `2^31` calls past its budget the 32-bit counter of `FlakyExecutor` wraps and calls fail again
  (`Flaky.BudgetFails`).

## Model

| member | source | states |
|---|---|---|
| PoolTheorems.SendNeverBlocks | pool/prewarmed_lang.go:60-80 | In every reachable state of all three strategies, a refill that holds a VM finds its channel open and with room, and its send neither panics nor blocks; this includes refills spawned by an Acquire after Close's wg.Wait returned |
| PoolTheorems.NeverPanics | pool/prewarmed_lang.go:129-145 | No reachable state has sent on a closed channel, closed a channel twice, or made the WaitGroup counter negative |
| PoolTheorems.SlotConservation | pool/prewarmed_lang.go:50-80 | Per channel: queued VMs + running refills + receipts not yet replaced + refills that ended without delivering + receipts that skipped the refill + VMs drained by Close = capacity |
| PoolTheorems.BootsBounded | pool/pool.go:61-81 | Boots in flight, over all languages, refills and cold boots, equal the tokens taken, never exceed max(1, BootConcurrency), and no release blocks |
| PoolTheorems.VmLinear | pool/prewarmed_lang.go:98-145 | Every started VM is in exactly one of: one thread's hands, its own language's channel, Close's hand, killed |
| PoolTheorems.KilledForGood | firecracker/driver.go:150-162 | Over any run a killed VM stays killed and is never again in anyone's hands, in a channel or in Close's hand |
| PoolFootprint.LiveVmsBounded | pool/prewarmed_lang.go:50-80 | In every reachable state the VMs started and not yet killed number at most capacity times channels plus the requests that hold one |
| PoolTheorems.SoleClaim | pool/prewarmed_lang.go:106-114 | A VM one thread holds or was lent is held by no other thread and was lent to no other |
| PoolTheorems.NoVmServesTwo | pool/executor.go:33-45 | Two calls of Execute, such as a job's two attempts, never receive the same VM, however far apart they are |
| PoolTheorems.AcquireDelivers | pool/prewarmed_lang.go:98-118 | A VM that Acquire returns is alive, of the requested language (per-language and on-demand strategies), not queued, in nobody else's hands and never lent before |
| PoolTheorems.CloseLeavesNothing | pool/prewarmed_lang.go:134-145 | Once Close has returned and every call and refill has ended, the killed VMs are exactly the started ones, including cold boots outside the WaitGroup and boots that failed half way |
| PoolTheorems.NilOnlyAcrossClose | pool/prewarmed_lang.go:98-118 | An Acquire that passed its check gets a nil VM exactly when its channel is closed and empty at the receive; then Close closed that channel in between, and no refill is spawned |
| PoolTheorems.ClosedInBetween | pool/prewarmed_lang.go:138-139 | In any run that starts with a channel open and ends with it closed, some step of Close closes it |
| PoolTheorems.OnlyCloseCloses | pool/prewarmed_lang.go:134-143 | No step but Close's step for that channel closes a channel |
| PoolLiveness.EffortFalls | pool/prewarmed_lang.go:134-145 | Once the context is cancelled, every step that Close needs (its own, a refill's, a pending spawn) lowers a natural-number measure, and no step of anyone raises it |
| PoolLiveness.CloseTerminates | pool/prewarmed_lang.go:134-145 | Over any run after the cancel, the number of steps Close needs is bounded by that measure, fixed when the context is cancelled |
| PoolLiveness.CloseProgresses | pool/prewarmed_lang.go:134-145 | Until Close has returned, some step it needs is enabled: no deadlock on the WaitGroup, the semaphore or a channel |
| PoolLiveness.CloseCanReturn | pool/prewarmed_lang.go:134-145 | From every state after the cancel there is a run to the return of Close, made only of steps it needs and no longer than the measure |
| PoolLiveness.RefillCanGiveUp | pool/prewarmed_lang.go:60-80 | After the cancel every unfinished refill has an enabled step |
| PoolLiveness.NothingQueuedAfterWait | pool/prewarmed_lang.go:134-143 | After wg.Wait has returned, channels only lose VMs from the front, whatever late refills do |
| PoolLiveness.WarmUpEnds | pool/prewarmed_lang.go:60-80 | Without requests, the steps of refills are bounded by a measure of the state they start from, whatever boots fail |
| PoolLiveness.SettledIsFinished | pool/pool.go:72-81 | While the pool is open, refills do not deadlock on the semaphore or on a channel: when none can move, all have finished |
| PoolLiveness.WarmUpConverges | pool/prewarmed_lang.go:60-80 | When an open pool has settled, each channel holds capacity minus failed boots minus receipts whose replacement is not yet spawned, and every refill has finished |
| PoolSupply.LossOverRun | pool/prewarmed_lang.go:68-74 | Over any run, neither the slots lost to failed boots nor those held by a refill that can only fail ever decrease |
| PoolSupply.LostForGood | pool/ondemand_spare.go:87-108 | When every slot of a channel is lost or held by a refill that can only fail, at every later moment a receive on it can only see the channel closed or, for on-demand pools, fall through to a cold boot; a prewarmed Acquire on an open pool waits until its context ends |
| PoolSupply.ServableIff | pool/prewarmed_lang.go:98-118 | For a request waiting in an open prewarmed pool, some run without Close or the end of a context gives it a VM if and only if some slot of its channel is neither lost nor held by a refill that can only fail |
| PoolSupply.SettledServableIff | pool/prewarmed_lang.go:60-80 | Once the refills have settled, that is: if and only if fewer slots than the capacity are lost |
| PoolSupply.HangsIff | pool/prewarmed_lang.go:106-117 | A call of Execute waiting in an open prewarmed pool under a context that is not done can never move again, over any run without Close or the end of a context, if and only if every slot of its channel is lost or held by a refill that can only fail |
| PoolSupply.LostSlotRun | pool/prewarmed_lang.go:60-80 | A run of an open pool of one slot in which one boot fails: already while the refill holds the failure no slot is lost, yet the waiting request cannot be served any more; at the end the slot is lost and the request can neither receive nor give up |
| PoolLiveness.NilVmRun | pool/prewarmed_lang.go:98-118 | A legal run from a new pool to an Acquire before its check, and on to its receive on the channel Close has closed in between; its next two steps return a nil VM with a nil error |
| PoolLaws.NewPool | pool/ondemand_spare.go:32-49 | A new pool is open, with one empty channel per language (or the generic one) and one refill per slot, of which there are PoolSize per channel, or one for on-demand pools |
| PoolLaws.CheckDecides | pool/prewarmed_lang.go:99-105 | A call is let in if and only if the pool is open and serves the requested language; otherwise it ends in an error and nothing changes |
| PoolLaws.CallGetsItsLanguage | pool/ondemand_spare.go:87-108 | Over any run from a call of Execute for a language: a VM it is given was booted for that language and carries its id (an empty one for the generic pool); it is never given one if the language is not registered or the pool was closed at the call |
| PoolLaws.WaitDecides | pool/prewarmed_lang.go:106-117 | A waiting call gives up if and only if its own context is done, receives the front VM of its channel when there is one, a nil VM when the channel is closed and empty, and on an open empty channel only an on-demand call goes on, to a cold boot |
| PoolLaws.ContextEnds | pool/prewarmed_lang.go:115-116 | The end of a call's context changes nothing by itself and lets a call waiting in a prewarmed pool give up |
| PoolLaws.RecheckDecides | pool/prewarmed_lang.go:107-114 | A receipt starts one refill for its channel, counted in the WaitGroup, if and only if the pool is open at its second check, and returns what it received |
| PoolLaws.NoRefillsAfterClose | pool/prewarmed_lang.go:109-113 | Once the pool is closed, over any run the refills number at most those that exist plus the calls already past their second check |
| PoolLaws.ChannelFifo | pool/prewarmed_lang.go:75-79 | Over any run, what refills sent to a channel after what it held is what requests and Close took from it, in that order, and then what it still holds |
| PoolLaws.TokenDecides | pool/pool.go:61-79 | At the semaphore a booter gives up if and only if its context is done (the pool's for a refill, the caller's for a cold boot), and goes on if and only if fewer than max(1, BootConcurrency) tokens are taken |
| PoolLaws.BootHasSevenStages | firecracker/driver.go:88-147 | Under a live context a boot returns its VM after exactly seven successful stages |
| PoolLaws.BootDecides | firecracker/driver.go:88-147 | Every stage can fail, and then the VM is killed and nothing returned; under a done context exactly the socket and the rootfs stages can succeed |
| PoolLaws.StartDecides | pool/pool.go:72-81 | With a token, the process of the next VM is started for the booter's channel, or the start fails and no VM exists |
| PoolLaws.ReleaseDecides | pool/ondemand_spare.go:51-81 | After a boot exactly one token is given back; a refill goes on to offer the VM or ends without one, a cold boot is lent the VM or ends in an error |
| PoolLaws.LateBootYieldsNothing | pool/prewarmed_lang.go:60-80 | A refill whose boot is not finished when the context is cancelled, late refills included, never hands on or delivers a VM over any run |
| PoolLaws.OfferDecides | pool/prewarmed_lang.go:75-79 | A refill with a VM can always deliver it, can give up if and only if the pool is cancelled, and then kills it |
| PoolLaws.ExitDecides | pool/prewarmed_lang.go:60-61 | A refill that ends counts the WaitGroup, which is positive, down by one |
| PoolLaws.UseDecides | pool/executor.go:38-44 | A call that was lent a VM ends in success exactly when its exchange does not fail, and kills the VM in both cases |
| PoolLaws.NilCrashes | pool/executor.go:47-49 | A call that was lent a nil VM crashes, killing nothing and changing nothing else |
| PoolLaws.SuccessIff | pool/executor.go:33-45 | Over any run, a call reports success if and only if it was lent a VM and its exchange succeeded |
| PoolLaws.EndedCallsReturned | pool/executor.go:38-44 | In every reachable state a call that has ended has killed the VM it was given |
| PoolLaws.CloseOrder | pool/prewarmed_lang.go:129-145 | In every reachable state: no cancel before the flag; no channel closed before the cancel, nor while a refill holds a booted VM it could send; on return every channel closed and empty; no step past the wait while the WaitGroup is not zero |
| PoolLaws.CloseDecides | pool/prewarmed_lang.go:134-138 | Close sets the flag, then cancels, then passes the wait if and only if the WaitGroup is zero, then turns to all channels |
| PoolLaws.DrainDecides | pool/prewarmed_lang.go:138-144 | Each channel is closed once while still open, then its VMs are taken from the front and each is killed before the next, until it is empty; Close returns when no channel is left |
| PoolRuns.InitInv | pool/prewarmed_lang.go:38-58 | A new pool satisfies the invariant: capacity refills per channel, nothing started |
| PoolRuns.StepKeeps | pool/prewarmed_lang.go:60-145 | Every step of every refill, request, context and Close keeps the invariant |
| PoolInvariant.RunKeeps | pool/prewarmed_lang.go:60-127 | Every step of one refill or request keeps the invariant, with the gaps between the closed check and the receive, and between the second check and wg.Add, left open to all others |
| PoolRuns.CloseKeeps | pool/prewarmed_lang.go:134-145 | Every step of Close keeps the invariant; its order makes wg == 0 imply that no refill can still deliver |
| PoolObject.Pool.constructor | pool/prewarmed_lang.go:38-58 | A new pool is the initial state: empty open channels, capacity refills counted in the WaitGroup and started for each; it satisfies the invariant |
| PoolObject.Pool.Execute | pool/executor.go:33-34 | A call of Execute adds one request, for exactly the given language, at its first check, and changes nothing else |
| PoolObject.Pool.Acquire | pool/ondemand_spare.go:87-108 | Each piece of Acquire between two shared accesses is exactly one protocol step on the whole state |
| PoolObject.Pool.Start | pool/ondemand_spare.go:51-62 | Taking the token and starting the process are each one protocol step |
| PoolObject.Pool.Boot | firecracker/driver.go:88-148 | Each boot stage, and the kill after a failed one, is one protocol step |
| PoolObject.Pool.Release | pool/prewarmed_lang.go:66-74 | Giving the token back and acting on Boot's result is one protocol step |
| PoolObject.Pool.Deliver | pool/prewarmed_lang.go:60-80 | The select between send and ctx.Done, the kill and the deferred wg.Done are each one protocol step |
| PoolObject.Pool.Use | pool/executor.go:38-44 | After Acquire: exchange, then exactly one of Release and Discard, each one protocol step; a nil VM crashes the call |
| PoolObject.Pool.CloseStep | pool/prewarmed_generic.go:104-113 | Each access of Close to shared state is one protocol step on the whole state |
| PoolObject.Pool.Advance | pool/prewarmed_lang.go:60-127 | On a valid pool, every enabled piece of a refill or request is one protocol step, leaves the pool valid and does not panic |
| PoolObject.Pool.AdvanceClose | pool/prewarmed_lang.go:134-145 | On a valid pool, every enabled piece of Close is one protocol step, leaves the pool valid and does not panic |
| Wire.Conn.ReadFull | guest/dreddagent/main.go:163-175 | Fills the buffer with the next bytes of the stream, in order, however they are split into reads; fails exactly when too few are left |
| Wire.ReadGreeting | firecracker/vsock.go:42-65 | For any splitting into reads: accepted exactly when the first newline is within the first 65 bytes and the line starts with OK; an accepted or rejected reply has consumed exactly the first line, a too long one exactly 65 bytes |
| Wire.GreetingDecides | firecracker/vsock.go:57-65 | Accepted if and only if the reply starts with OK and its first newline is among the first 65 bytes; too long and broken off told apart by 65 bytes without a newline |
| Wire.Dial | firecracker/vsock.go:38-68 | Sends CONNECT, the port and a newline, then judges the reply; what follows the line is left for the exchange |
| Wire.HeaderRoundTrip | guest/dreddagent/main.go:188-189 | The big-endian header of every length below 2^32 reads back as that length |
| Wire.NumberIsBigEndian | agent/proto.go:7-8 | The header is read as a number in base 256, most significant byte first |
| Wire.FrameLayout | agent/proto.go:7-8 | A frame is four bytes of big-endian length modulo 2^32, followed by the payload |
| Wire.CutFrame | guest/dreddagent/main.go:163-175 | A valid frame that breaks off anywhere yields an error, told apart by header and payload, and never a payload |
| Wire.WriteFrame | guest/dreddagent/main.go:183-195 | Appends the header, with the length truncated to 32 bits, and the whole payload |
| Wire.ReadFrame | firecracker/vsock.go:93-103 | For any splitting into reads, the result and the bytes left over are those of ParseFrame on the stream |
| Wire.FrameRoundTrip | agent/proto.go:14-16 | A reader recovers exactly the payload and leaves the rest untouched if and only if the payload has 1 to MaxFrameBytes bytes |
| Wire.LongFrameRefused | firecracker/vsock.go:96-99 | Every payload longer than MaxFrameBytes and shorter than 2^32 is refused with its length, having consumed only the header |
| Wire.FrameOutcome | guest/dreddagent/main.go:163-195 | For every payload of any length, what a reader makes of its frame: the length modulo 2^32 decides, and the bytes left over are fixed |
| Wire.BadFrameRefused | agent/proto.go:14-16 | An empty or oversized payload is refused if and only if its length does not wrap around to 1 to MaxFrameBytes |
| Wire.HugeFrameCut | guest/dreddagent/main.go:183-195 | Every payload whose length wraps around is accepted cut to its length modulo 2^32, and the rest of it stays on the stream |
| Proto.Json.CrossingTwice | queue/redis.go:100-109 | Crossing the frame codec and then the Redis codec equals one normalisation |
| Guest.CappedBuffer.Write | guest/dreddagent/main.go:149-159 | Reports the whole chunk written and keeps the first cap bytes of everything written so far |
| Guest.Capture | dreddtest/executor.go:96-113 | However the writes are chunked, the captured output is the first cap bytes of their concatenation |
| Guest.RunOnce | guest/dreddagent/main.go:110-142 | Both outputs capped, the exit code (0 when clean, the status itself, else -1), the timeout flag, and an error exactly when the run did not end cleanly |
| Guest.HandleRequest | guest/dreddagent/main.go:71-108 | A set-up error, else the compile error (stderr, or stdout when stderr is empty), else one result per stdin in order; the two remaining agent errors cannot occur |
| Guest.CompileErrorIs | guest/dreddagent/main.go:80-92 | A compile step that does not end cleanly is answered with the captured error stream, or with the captured output when nothing was written to the error stream |
| Guest.CaseIs | guest/dreddagent/main.go:94-107 | Otherwise result k holds the first OutputLimitBytes bytes of each stream of the k-th run, its exit status (0 when clean, -1 when it could not be told) and its timeout flag |
| Guest.SetupErrorIs | guest/dreddagent/main.go:72-78 | A source file that cannot be written is the agent error, and nothing is run |
| Guest.ExactlyOneAnswer | agent/proto.go:50-57 | Never both a compile error and results; at least one of them if and only if the compile step does not fail without captured output |
| Guest.NeitherAnswer | guest/dreddagent/main.go:80-91 | For every request with a compile step there is a guest whose answer holds neither a compile error nor results |
| Guest.GuestTimeBounded | guest/dreddagent/main.go:80-113 | When every run keeps the timeout runOnce sets, in 64-bit nanoseconds, the running time summed over the guest's loop is at most 4T (if compiling) + n*T |
| Guest.WorstCaseHappens | guest/dreddagent/main.go:80-113 | The bound is attained whenever the timeouts do not overflow (bound stated) |
| Budget.BudgetExact | pool/executor.go:47-48 | Without int64 nanosecond overflow (bound stated) the budget is (n+1)*T + ExtraBudget |
| Budget.BudgetCovers | pool/executor.go:47-48 | For every n, the host's budget covers the guest's worst case if and only if there is no compile step or 3T <= ExtraBudget |
| Budget.DefaultGrace | pool/executor.go:24-31 | With the default grace, compiled languages are covered exactly up to a limit of 10 s |
| Budget.GuestInBudget | pool/executor.go:47-54 | Under that condition every guest whose runs keep their limits answers within the host's budget |
| Budget.GuestCutOff | pool/executor.go:47-54 | Otherwise, when 4T does not overflow the guest's timeout either, some guest whose runs keep their timeouts exceeds it |
| Duration.TimeoutBounded | guest/dreddagent/main.go:112-113 | The timeout in force is never longer than the limit asked for, and equal to it without int64 overflow |
| Exchange.HostExchange | firecracker/vsock.go:73-109 | Refuses an oversized request without touching the connection; else sends exactly one frame and decodes the first frame of the reply, with each error case told apart |
| Exchange.Serve | guest/dreddagent/main.go:46-69 | The guest answers exactly one frame with one frame, and says nothing when the request does not parse |
| Exchange.HostDecides | firecracker/vsock.go:93-108 | The host's result for any reply frame: the decoded response, a decoding error, or the frame error when it is cut short anywhere |
| Exchange.GuestDecides | guest/dreddagent/main.go:59-68 | The guest answers a whole frame that decodes, with the handler's response in one frame, and nothing else |
| Exchange.ExchangeComposes | firecracker/vsock.go:73-109 | Host frame, guest decoding, handler, guest frame and host decoding compose to the handler's answer, normalised, whatever follows it on the stream; larger answers are refused unless their length wraps around |
| Exchange.ExchangeDecided | firecracker/vsock.go:77-108 | Unless the length of the answer wraps around, an exchange succeeds if and only if both messages fit a frame, and then yields the handler's answer |
| Exchange.Call | pool/executor.go:47-55 | Dial, then exchange, on one connection: what is sent and the result are fixed by the bytes the peer sends, with handshake, size, frame and decoding errors told apart |
| Exchange.CallComposes | pool/executor.go:47-55 | A peer that greets with a line of at most 64 bytes starting with OK and then answers has its answer delivered when both messages fit a frame, whatever follows |
| Exchange.CallDecided | pool/executor.go:47-55 | With a peer that sends one line and then serves, the call is refused for a long line or one without OK, and otherwise ends as the exchange does |
| Exchange.OversizeDecides | firecracker/vsock.go:81-99 | A request over 32 MiB is refused with its size before anything is sent; an answer over 32 MiB and below 2^32 bytes is refused with its size |
| Decimal.AtoiItoa | queue/redis.go:110-123 | Reading back a written decimal succeeds if and only if the number fits a Go int |
| Decimal.DigitsByPlace | queue/redis.go:53-54 | Numbers are written in decimal place value, most significant digit first, without leading zeros |
| Decimal.AtoiDecides | queue/redis.go:110-123 | Atoi accepts an optional sign and at least one digit and nothing else, and yields the number by place value when it fits a Go int |
| JobStore.LoadEnqueued | queue/redis.go:41-60 | A freshly enqueued job loads as submitted: status queued, no results, exact limits |
| JobStore.LoadReads | queue/redis.go:92-123 | Every part of a loaded job comes from the hash field of its name; absent or empty ones take their defaults |
| JobStore.LoadErrors | queue/redis.go:89-123 | Which error Load gives: not-found exactly for a missing hash, otherwise the first field that does not decode, in the order stdins, results, time limit, memory limit |
| JobStore.EnqueuedHash | queue/redis.go:46-58 | Enqueueing leaves exactly the seven named fields under the id, pushes the id at the left, and touches nothing else |
| JobStore.MarkedHash | queue/redis.go:128-130 | SetRunning changes exactly the status field of one hash |
| JobStore.ConcludedHash | queue/redis.go:139-150 | Finish changes exactly four named fields of one hash, and sets its expiry exactly for done or failed under a positive TTL |
| JobStore.LoadUpdated | queue/redis.go:127-151 | Setting the fields of SetRunning or Finish on a loadable hash is the corresponding update of the record |
| JobStore.HashRefinesRecord | queue/redis.go:41-151 | Over any sequence of updates the hash of strings loads as exactly the updated record |
| JobStore.Queue.Enqueue | queue/redis.go:40-60 | Hash and list push take effect together or not at all |
| JobStore.Queue.Dequeue | queue/redis.go:62-77 | Takes the rightmost id, or returns the empty id on an empty list or nothing on an error |
| JobStore.Queue.LoadJob | queue/redis.go:84-125 | The field-by-field decoding, with its early returns, computes Load of the stored hash |
| JobStore.Queue.SetRunning | queue/redis.go:127-130 | Sets the status and leaves every other field, key and the list alone |
| JobStore.Queue.Finish | queue/redis.go:132-151 | The four final fields and, for a terminal status and a positive TTL, the expiry, together or not at all |
| Langs.TableAgrees | langs/registry.go:17-46 | In a loaded registry keys and ids agree and the order lists every key once |
| Langs.TableEntry | langs/registry.go:27-39 | Every accepted entry is found under its own id, with its resolved rootfs |
| Langs.Registry.Load | langs/registry.go:17-41 | Accepts a list if and only if every entry is complete and no id occurs twice; then holds exactly its entries in order |
| Langs.Registry.Get | langs/registry.go:43-46 | Finds an id exactly when it was listed, and returns the entry with that id |
| Langs.Registry.All | langs/registry.go:48-54 | Returns every entry once, in file order, with distinct ids |
| JobInvariant.InitInv | queue/redis.go:34-36 | The empty store with idle workers satisfies the invariant |
| JobInvariant.StepKeeps | worker/worker.go:70-137 | Every Redis command, call and decision of every worker and client, succeeding or failing, keeps the invariant |
| JobInvariant.LoadFinds | worker/worker.go:88-96 | A worker that loads a dequeued id finds it, well-formed, exactly as it was submitted |
| JobTheorems.Fifo | queue/redis.go:41-77 | With any number of workers the dequeued ids are a duplicate-free prefix of the enqueued ids, and the remainder is the list from right to left |
| JobTheorems.EachIdOnce | worker/worker.go:70-96 | Every enqueued id is in exactly one of: the list, the hands of exactly one worker, finished, given up |
| JobTheorems.LoadsSucceed | queue/redis.go:79-125 | In every reachable state a stored job loads as its abstract record and no stored hash is malformed; not-found exactly for ids never enqueued or expired |
| JobTheorems.FaultedIff | worker/worker.go:88-102 | Over any run, a job is given up if and only if a Load, SetRunning or Finish command of the worker holding it failed; a Load of a stored job never errs otherwise |
| JobTheorems.QuietMeansDone | worker/worker.go:88-137 | At rest, a job has had its final write if and only if no Redis command of its worker failed over the run; then it reads as terminal until it expires, otherwise as the queued or running job it was |
| JobTheorems.AllJobsTerminal | worker/worker.go:88-137 | In a run without Redis errors, at rest, every enqueued job is terminal, or expired after being terminal |
| JobTheorems.FirstView | queue/redis.go:41-60 | An id is not found before its submission and reads as the queued job right after it |
| JobTheorems.StepOnward | api/status.go:29-46 | One step leaves a client's view alone, starts a queued job, ends a running one, or removes a terminal one, and changes nothing of what was submitted |
| JobTheorems.MonotoneHistory | api/status.go:29-46 | Over any run the views after each step go, one stage at a time, from the queued job to the same job running, to one fixed terminal record, to not-found; between queued and terminal there is always a running view |
| JobTheorems.ExpiryIffTerminal | queue/redis.go:132-151 | For a positive TTL an expiry is set exactly when the status is terminal, for others never; results are never seen before done |
| JobLiveness.JobsAreBounded | worker/worker.go:70-137 | In any interleaving and whatever fails, workers take at most seven steps for each enqueued job; what is still owed is a measure of the state |
| JobLiveness.RemainingFalls | worker/worker.go:88-137 | Every step that advances a job lowers that measure, and only a submission raises it |
| JobLiveness.JobsProgress | worker/worker.go:70-137 | Given the set of workers whose call of Execute never returns, in every reachable state some worker can advance a job if and only if not every worker is idle, stopped or in such a call, or a job waits and a worker is idle |
| JobLiveness.RestIsReachable | worker/worker.go:70-137 | Given the set of calls that never return, the workers can come to rest if and only if there is no such call, and they are at rest already or one of them is not stopped |
| JobLiveness.StoppedForGood | worker/worker.go:70-74 | A worker stops only with no job in hand, and never takes one again |
| JobLiveness.StuckWorkerRun | worker/worker.go:121-135 | For every job in a registered language, a run that leaves the only worker in its first call: if it does not return, no job can be advanced, no run comes to rest, and the job reads as running |
| JobLiveness.GivenUpRun | worker/worker.go:88-96 | For every job, a run in which its Load fails: at rest it has been popped and given up and still reads as queued |
| JobLiveness.QuietIffNothingLeft | worker/worker.go:70-86 | The measure is zero if and only if the list is empty and all workers are idle |
| Worker.Process | worker/worker.go:88-137 | The retry loop: gives up on a failed Load or SetRunning, otherwise makes at most two calls and one final write with the verdict of the first response, or the last error |
| Worker.ProcessIsRun | worker/worker.go:88-137 | What Process does to the store is what a legal run of one worker's protocol steps does |
| Flaky.FlakyExecutor.Execute | dreddtest/executor.go:132-137 | Below wrap-around, call number k fails exactly when k < N |
| Flaky.BudgetFails | dreddtest/executor.go:124-137 | The 32-bit counter after k calls; the call after the wrap-around fails again |
| Flaky.RetryBounds | worker/worker.go:121-136 | In any interleaving of any number of workers, Redis errors included: failing calls = min(N, calls); calls = first attempts + failed first attempts; twice the calls that fail a job's second attempt <= min(N, calls) |
| Flaky.FailedJobs | worker/worker.go:121-136 | Without Redis errors and agent errors, twice the number of jobs recorded as failed is at most min(N, calls); at rest those are exactly the jobs that failed both attempts, calls = jobs + failed first attempts, and every unexpired job reads as failed or done accordingly |
| Flaky.EveryJobCalled | worker/worker.go:70-136 | At rest after a run without Redis errors, first attempts = enqueued jobs |
| Flaky.OneWorkerFailures | worker/worker.go:121-136 | With one worker and M jobs, exactly min(M, N div 2) second attempts fail |
| Flaky.OneWorkerFailedJobs | worker/worker.go:121-136 | With one worker and M jobs, exactly min(M, N div 2) jobs are recorded as failed |
| EndToEnd.AdmitDecides | api/exec.go:48-55 | A submission is accepted if and only if it has a language, a source, at least one stdin and a registered language; each refusal names the first check that fails |
| EndToEnd.AdmittedJobs | api/exec.go:61-69 | An accepted submission becomes a job with exactly its id, language, source, stdins and limits |
| EndToEnd.SubmissionReachesGuest | worker/worker.go:104-119 | A complete submission in a registered language with limits that are Go ints is accepted and, stored in Redis, loaded, turned into a request and sent, reaches the guest with its texts normalised once, its own limits where positive and the defaults elsewhere, and its language's file name and commands |
| EndToEnd.FinalReported | worker/worker.go:123-136 | The final write of a job with a decisive attempt reports that guest's answer: agent error, compile error, or one result per stdin |
| EndToEnd.RunObeys | worker/worker.go:88-137 | Over any run, every finished record is the final write determined by the job's own two attempts |
| EndToEnd.FinishedDelivered | worker/worker.go:110-136 | At any moment of any run, with arbitrary Redis and VM-side failures and other jobs under way: an admitted job whose final write took effect reads, until it expires, as the answer of the first attempt that got through (done with one result per stdin in order, each output the first OutputLimitBytes bytes written, normalised once; or the compile error; or the agent error), or as failed with the second attempt's error |
| EndToEnd.UnknownLanguageFails | worker/worker.go:104-108 | A job in an unregistered language whose final write took effect reads as failed with the unknown-language error, and no worker is ever in a call for such a job |
| EndToEnd.Delivered | worker/worker.go:70-136 | In a run of admitted jobs without Redis errors, at rest, that holds of every job that has not expired |
| EndToEnd.HealthyDelivered | worker/worker.go:121-136 | In such a run, a job whose first attempt is healthy (peer greets with OK, both messages fit, programs start and compile), or whose second is after a fault of the first, reads as done without errors and with exactly one delivered result per stdin, in order |
| EndToEnd.JobInBudget | worker/worker.go:110-119 | The limits a worker puts in a request are positive, and a guest that keeps them answers within the host's budget when there is no compile step or three limits fit in the grace |
| JsonModel.LawfulJsonExists | agent/proto.go:18-57 | There is a codec that satisfies every law assumed of JSON |

## Left out

- A second call of `Close`, and the runtime's own check against `WaitGroup.Add` racing with `Wait` at zero: the WaitGroup is a counter that must not become negative.
- A Go panic ends the process; here only the crashed call stops and the others go on, so runs after the nil-VM crash are over-approximated.
- Real goroutine scheduling, timeouts of `waitForSocket`, dialling and deadlines: a call that runs out of time is a call that fails.
- The Firecracker REST bodies, rootfs cloning, working directories and `Kill`'s system calls: `Boot` is a sequence of stages that may each fail.
- `pool.New` (a dispatch on the strategy), `config` clamping, HTTP routing and headers, `App` wiring, `cmd/`, `LocalExecutor` and `DockerExecutor` beyond the capped buffer.
- go-redis retries and replies lost after a command took effect.
- JSON syntax and the exact effect of text normalisation; ULID generation.
- The `dredd:job:` key prefix: hashes are keyed by the id itself.
- Dial retries in `VsockHostDial`, and the text of the rejection error.
- Polls that find nothing: only a pop that yields an id is a step of a worker.
- `filepath.Join` of a rootfs path: `Registry.Load` takes the resolution as a parameter. Reading and parsing the languages file, and `PublicAll`.
- Memory limits, which the guest ignores.
- Wall-clock time of a run: elapsed times are data, and the limits are hypotheses of the budget lemmas.
- Worker.Process: the text of the unknown-language error omits the quoted language name.
- EndToEnd.FinishedDelivered: says nothing of a job one of whose attempts gave an answer whose length wraps around (`Wire.Wraps`), because the host then decodes a cut text; the texts of transport errors leave out the wrapped system error.
- Flaky.RetryBounds: counts calls from the first one, takes the first N of them to fail, and does not model the 32-bit wrap-around, which `Flaky.BudgetFails` places at `N + 2^31` calls.
- Wire.Conn.Read: a failing connection and the end of the stream are the same event.
- Guest.HandleRequest: a nil and an empty list of stdins are the same, and running time and memory use are reported as zero, as in the source.
