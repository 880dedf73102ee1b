# Itsi: models and proofs

Itsi is a web server in Rust and Ruby. This project models its small state machines, the parts in which several
structures, several parties or several runs of a loop have to fit together, and proves what they keep. Each module
follows one component:

- `ChunkedDecoder`: the decoder of a hijacked response's chunked body, against every way the input can be cut into reads.
- `Timers`, `IoScheduler`, `NativeScheduler`: the native half of the fiber scheduler: timer heap, waiter map, queues per descriptor, poller.
- `FiberScheduler`: the Ruby half: resume tokens and the two unblock lists.
- `WorkerHandoff`: the protocol between a worker's scheduler fiber and its waker thread, as interleaved atomic steps.
- `RateLimiter`, `RedisLimiterStore`: fixed-window rate limits in memory; the shared creation of Redis limiters.
- `HttpResponse`, `FrameStream`, `ResponseHistory`: the one-shot response object, its body channel, the coalescing stream behind it, and what is delivered told from the calls alone.
- `AcmeState`, `AcmeOrder`, `AcmeOutcome`, `AcmeResolver`: certificate renewal as a polled machine; one order of RFC 8555, and what it does told from the answers alone; the keys clients are shown.
- `StaticFileCache`: the file cache with timed rechecks under concurrent requests and a changing disk.
- `RackEnv`: the pool of recycled Rack environments.

Code that changes fields or loops is a class or a method, proved to compute a function on values; the properties are
lemmas about those functions, and `Run` or a recursive history takes them over every run. Protocols between several
parties are functions on values whose steps are the atomic actions, taken in any order.

## What turned out different from what one would expect

- A read that ends right before or inside the CRLF behind a chunk loses all chunks after it; `DecodesAllIff` says this
  is the only way to lose one.
- The rate limiter admits at most 2L-1 requests in any window's length, not 2L: an entry still counts at the instant it
  expires. A clean-up at exactly that instant is noticed, and only then.
- A timer that fires for a waiter behind the head of its queue pops the wrong waiter (`ExpireKeepsAgreementIff`). Numbers
  of entries and waiters still match, so nothing panics (`QueueAlwaysThere`).
- A timer never deregisters. With a poller that refuses a second registration of a descriptor, as epoll does, one timeout
  loses the descriptor (`ExpiryLoses`): neither a waiter behind nor one that registers later is watched
  (`ExpirePoller`, `RegisterServesIff`), and no event reaches them however the run goes on (`LostForever`). With one that
  overwrites, as kqueue does, all heads stay watched (`RunServes`).
- An issued certificate that does not parse arms no timer (`FinishArmsTimerIff`), so orders can follow each other without
  any pause (`BadCertificatesOrderWithoutPause`); one that parses but is past its renewal arms a timer of no length.
- Two authorizations for one domain in one round can answer for each other (`OwnKeysIff`).
- The static file cache notes the time of a look after looking, so `recheck_interval` alone bounds the age of what is
  served if and only if no time passes in between (`AlwaysRecentIff`); interval and delay together are the exact bound
  (`AgeBoundIff`).
- A recycled Rack environment equals a fresh one only while `$stderr` is the stream it was when the template was built,
  because the template keeps the old one.

## Assumptions

- Tokens of the fiber scheduler are new and not zero. The poller fails only by refusing a descriptor that is registered already, if it is of that kind; descriptors stay open while they are registered.
- Times are whole nanoseconds or seconds, given by the caller; clocks do not run backwards, except the time of day certificates are compared with; timers are not reported before they run out; the clock stands still within `FetchDueTimers`.
- Only the waker unblocks the scheduler fiber, and `block` and `yield` do not raise.
- A modification time is not used again once a file has changed or gone.
- Random choices (clean-up), network answers, readiness and shutdown signals are arbitrary parameters.

## Model

| member | source | states |
|---|---|---|
| ChunkedDecoder.Decoder.Poll | crates/itsi_server/src/ruby_types/itsi_http_response.rs:179-208 | the read-and-drain loop returns the next chunk and leaves the buffer and the unread input exactly as `NextChunk` says, for every cut of the input into reads |
| ChunkedDecoder.NextChunk | crates/itsi_server/src/ruby_types/itsi_http_response.rs:181-205 | each chunk handed out consumes input, so the stream ends |
| ChunkedDecoder.ParseSizeLine | crates/itsi_server/src/ruby_types/itsi_http_response.rs:184-187 | a line of hexadecimal digits, each from a table of either letter case and weighted by its power of sixteen, parses with its CRLF to that weighted sum if it is below 2^64; leading zeros included |
| ChunkedDecoder.ParseSizeIff | crates/itsi_server/src/ruby_types/itsi_http_response.rs:184-186 | exactly which lines are read as which number: white space, an optional plus sign, and digits that denote a number below 2^64 |
| ChunkedDecoder.SizeRoundTrip | crates/itsi_server/src/ruby_types/itsi_http_response.rs:184-186 | every number below 2^64 is read back from the line that writes it |
| ChunkedDecoder.LineIsFill | crates/itsi_server/src/ruby_types/itsi_http_response.rs:182-191 | whatever the reads, the size line is found exactly when all of it has arrived; a bad or zero size ends the stream |
| ChunkedDecoder.CutExact | crates/itsi_server/src/ruby_types/itsi_http_response.rs:192-201 | the data of a chunk comes out whole and unchanged; its CRLF is consumed if and only if no read ends inside it or right before it |
| ChunkedDecoder.NextExact | crates/itsi_server/src/ruby_types/itsi_http_response.rs:179-205 | on an encoded chunk followed by anything: exactly its data is delivered, and what remains is the rest of the input, with the CRLF still in front if and only if a read split it off |
| ChunkedDecoder.StrayCRLFEnds | crates/itsi_server/src/ruby_types/itsi_http_response.rs:183-199 | a CRLF left in front of a size line ends the body |
| ChunkedDecoder.EndingEnds | crates/itsi_server/src/ruby_types/itsi_http_response.rs:187-190 | the last chunk, complete or cut short, delivers nothing |
| ChunkedDecoder.DecodesPrefix | crates/itsi_server/src/ruby_types/itsi_http_response.rs:179-208 | for every valid encoding (section 7.1 of RFC 9112, without extensions), every truncation of it and every cut into reads, the chunks delivered are a prefix of the chunks encoded |
| ChunkedDecoder.DeliversIff | crates/itsi_server/src/ruby_types/itsi_http_response.rs:179-208 | chunk `k` is delivered if and only if no read ends between the data of an earlier chunk and the end of that chunk's CRLF |
| ChunkedDecoder.DecodesAllIff | crates/itsi_server/src/ruby_types/itsi_http_response.rs:179-208 | all chunks are delivered if and only if that holds for every chunk but the last |
| ChunkedDecoder.WholeTail | crates/itsi_server/src/ruby_types/itsi_http_response.rs:192-205 | the condition on the reads after one chunk is the condition on the remaining chunks |
| ChunkedDecoder.SplitCRLFLosesAChunk | crates/itsi_server/src/ruby_types/itsi_http_response.rs:197-199 | a concrete two-chunk body in two reads of which only the first chunk is delivered |
| Timers.EarliestUnique | crates/itsi_scheduler/src/itsi_scheduler/timer.rs:19-27 | wake time and then token decide which timer is on top of the heap, so it does not depend on how the heap is arranged |
| Timers.DueIffNoTimeLeft | crates/itsi_scheduler/src/itsi_scheduler/timer.rs:37-43 | a timer is due exactly when no time is left, and the time left is the time until it is due |
| Timers.DueInOrderExact | crates/itsi_scheduler/src/itsi_scheduler/timer.rs:19-39 | popping due timers from the top gives each due timer as often as it is in the heap and no other, ordered by wake time and then token |
| NativeScheduler.Scheduler.RegisterIoWait | crates/itsi_scheduler/src/itsi_scheduler.rs:77-113 | a ready descriptor is reported at once; otherwise the waiter enters map and queue, and the poller if it is first in line; an error before that changes nothing, a descriptor the poller refuses is reported with the waiter left in map and queue |
| NativeScheduler.Scheduler.StartTimer | crates/itsi_scheduler/src/itsi_scheduler.rs:115-120 | one timer is added, none for a missing or negative timeout |
| NativeScheduler.Scheduler.ClearTimer | crates/itsi_scheduler/src/itsi_scheduler.rs:122-124 | all timers of the token go and no others |
| NativeScheduler.Scheduler.HasPendingIo | crates/itsi_scheduler/src/itsi_scheduler.rs:126-128 | true exactly while a timer or a waiter is left |
| NativeScheduler.Scheduler.FetchDueEvents | crates/itsi_scheduler/src/itsi_scheduler.rs:146-221 | the poller is asked unless there are only timers; it waits exactly until the earliest timer and not at all once one is due; what is reported is served as `DeliverAll` says; no call finds a queue missing, with any tokens reported |
| NativeScheduler.Scheduler.ServeEvents | crates/itsi_scheduler/src/itsi_scheduler.rs:164-216 | the event loop computes `DeliverAll`; repeated, unknown and wake-up tokens are skipped; each report is about the waiter served at its place and carries bit 1 for readable, 2 for priority, 4 for writable and no other, as the first event for it says |
| NativeScheduler.Scheduler.FetchDueTimers | crates/itsi_scheduler/src/itsi_scheduler.rs:283-319 | returns exactly the due timers in order and keeps the rest; map, queues and poller become `ExpireAll`; if the poller refuses a waiter that moves up, the call fails there with the timers before it gone and its own kept; no call finds a queue missing, whatever waiters the timers hit |
| NativeScheduler.Scheduler.PopQueue | crates/itsi_scheduler/src/itsi_scheduler.rs:197-215 | the front entry goes; the next waiter is registered, or the queue is dropped; fails exactly if the poller refuses the descriptor |
| NativeScheduler.AllCompletedIff | crates/itsi_scheduler/src/itsi_scheduler.rs:291-310 | a call gets through all due timers if and only if the poller refuses no waiter that moves up; it always does with a poller that overwrites registrations |
| IoScheduler.RegisterKeeps | crates/itsi_scheduler/src/itsi_scheduler.rs:98-111 | registering keeps map and queues in agreement, and the poller exact |
| IoScheduler.RegisterHonest | crates/itsi_scheduler/src/itsi_scheduler.rs:104-110 | after a registration, a registration under a waiter's token is still that of a head |
| IoScheduler.RegisterServesIff | crates/itsi_scheduler/src/itsi_scheduler.rs:104-110 | after a registration the heads are registered if and only if the descriptor had a queue already or the poller does not refuse it for an old registration |
| IoScheduler.DeliverKeeps | crates/itsi_scheduler/src/itsi_scheduler.rs:164-216 | serving a queue head, an unknown token or the wake-up token keeps the waiter map the disjoint union of the queues, and the poller on the heads, with either kind of poller, because this path deregisters first |
| IoScheduler.PollerReportsHeads | crates/itsi_scheduler/src/itsi_scheduler.rs:164-177 | among waiters, a poller reports only heads of queues |
| IoScheduler.DeliverAllKeeps | crates/itsi_scheduler/src/itsi_scheduler.rs:164-216 | a whole batch of events keeps agreement and poller |
| IoScheduler.DeliverAllInOrder | crates/itsi_scheduler/src/itsi_scheduler.rs:164-216 | what a batch serves on a descriptor, followed by the queue it leaves, is the queue there was: first come, first served |
| IoScheduler.DueIsServed | crates/itsi_scheduler/src/itsi_scheduler.rs:164-194 | in every state and for every batch, the reports are the waiters served, in order, each with the readiness bits of the first event for its token |
| IoScheduler.EveryEventServed | crates/itsi_scheduler/src/itsi_scheduler.rs:164-194 | every waiter for whose token there is an event is served |
| IoScheduler.ExpireKeepsAgreementIff | crates/itsi_scheduler/src/itsi_scheduler.rs:291-310 | a timer keeps map and queues in agreement if and only if its waiter, when it has one, heads its queue |
| IoScheduler.ExpiryBehindHeadBreaksAgreement | crates/itsi_scheduler/src/itsi_scheduler.rs:291-310 | two waiters on one descriptor, the second timing out: the queue keeps the wrong one |
| IoScheduler.ExpirePoller | crates/itsi_scheduler/src/itsi_scheduler.rs:291-310 | a timer on a head never deregisters: afterwards the heads are registered if and only if the poller overwrites registrations or nobody else is queued, and no registration is left over if and only if somebody is |
| IoScheduler.ExpireAllKeeps | crates/itsi_scheduler/src/itsi_scheduler.rs:283-319 | a batch of timers that each find their waiter at the head keeps agreement and order, and registrations under waiters' tokens those of heads |
| IoScheduler.ExpireAllServes | crates/itsi_scheduler/src/itsi_scheduler.rs:283-319 | it keeps all heads registered as long as each timer leaves nobody queued or the poller overwrites |
| IoScheduler.ExpiryLoses | crates/itsi_scheduler/src/itsi_scheduler.rs:291-310 | with a poller that refuses, every timeout of a watched waiter leaves its descriptor registered under a dead token |
| IoScheduler.LostForever | crates/itsi_scheduler/src/itsi_scheduler.rs:77-319 | over every continuation, no event serves any waiter for such a descriptor again: only timers end their waits |
| IoScheduler.TakeKeepsCount | crates/itsi_scheduler/src/itsi_scheduler.rs:291-310 | serving or expiring any token keeps as many queue entries as waiters on each descriptor, with no head condition |
| IoScheduler.AfterKeeps | crates/itsi_scheduler/src/itsi_scheduler.rs:77-319 | each operation keeps agreement and order, and registrations under waiters' tokens those of heads |
| IoScheduler.RunSound | crates/itsi_scheduler/src/itsi_scheduler.rs:77-319 | over every run of registrations, event batches and timers that find their waiters at the head, with either kind of poller: the waiter map is the disjoint union of non-empty queues, each descriptor's waiters are served in the order registered, registrations under waiters' tokens are those of heads, and without timers there is no registration but those of queued descriptors |
| IoScheduler.AfterServes | crates/itsi_scheduler/src/itsi_scheduler.rs:77-319 | an operation in which the poller refuses nothing keeps each queued descriptor registered under its head |
| IoScheduler.RunServes | crates/itsi_scheduler/src/itsi_scheduler.rs:77-319 | over every such run each queued descriptor is registered under its head, if the poller overwrites registrations or no timer fires |
| IoScheduler.NothingPendingNothingQueued | crates/itsi_scheduler/src/itsi_scheduler.rs:126-128 | when no timer and no waiter is left, no queue is left either |
| IoScheduler.QueueAlwaysThere | crates/itsi_scheduler/src/itsi_scheduler.rs:197-215 | over every run, with any tokens reported and any timers firing, a waiter's queue is there to be popped: neither unwrap panics |
| FiberScheduler.Scheduler.ResumeToken | gems/scheduler/lib/itsi/scheduler.rb:11-14 | tokens are issued in increasing order |
| FiberScheduler.Scheduler.BlockUntilYield | gems/scheduler/lib/itsi/scheduler.rb:28-34 | the fiber is entered under its token in both maps and among the join waiters |
| FiberScheduler.Scheduler.LeaveBlock | gems/scheduler/lib/itsi/scheduler.rb:35-42 | the clean-up removes the fiber and its own token from all of them |
| FiberScheduler.Scheduler.ResumeFiber | gems/scheduler/lib/itsi/scheduler.rb:74-88 | a known token is taken out and its fiber resumed; an unknown one does nothing |
| FiberScheduler.Scheduler.UnblockFiber | gems/scheduler/lib/itsi/scheduler.rb:53-58 | the fiber is appended to the list being written |
| FiberScheduler.Scheduler.SwitchUnblockBatch | gems/scheduler/lib/itsi/scheduler.rb:98-106 | the two lists change places and the one taken is returned |
| FiberScheduler.Scheduler.HasWork | gems/scheduler/lib/itsi/scheduler.rb:114-117 | work is an unblocked fiber, a join waiter or pending I/O |
| FiberScheduler.AfterKeeps | gems/scheduler/lib/itsi/scheduler.rb:28-106 | every step keeps: the token map and the fiber map are inverse over the parked fibers, ended tokens are never current again and wake at most once, fibers handed on are the front of the calls of `unblock` |
| FiberScheduler.Run | gems/scheduler/lib/itsi/scheduler.rb:28-124 | the same over every run, with `unblock` at any moment from any thread |
| FiberScheduler.EndedStays | gems/scheduler/lib/itsi/scheduler.rb:28-88 | a wait that ended stays ended in every continuation |
| FiberScheduler.StaleTokenIsHarmless | gems/scheduler/lib/itsi/scheduler.rb:74-96 | in every continuation, a token whose wait has ended, by event, timer or interruption, resumes nobody and changes nothing |
| FiberScheduler.WorkIff | gems/scheduler/lib/itsi/scheduler.rb:114-117 | between ticks of any run, there is work exactly while an unblocked fiber was not handed on, a fiber is parked, or the native half has a timer or a waiter |
| FiberScheduler.LoopStopsClean | gems/scheduler/lib/itsi/scheduler.rb:114-124 | when the loop stops, after any run of either half, both lists are empty, every fiber passed to `unblock` has been handed on exactly once in order of arrival, no fiber is parked, the timer heap is empty, and the native half has no waiter in its map or in any queue |
| WorkerHandoff.AfterKeeps | crates/itsi_server/src/server/thread_worker.rs:250-350 | every step of scheduler fiber, waker thread, listeners or other workers keeps: the two parties alternate, the job accounting is exact and nothing is dispatched behind a shutdown |
| WorkerHandoff.Run | crates/itsi_server/src/server/thread_worker.rs:250-427 | the same over every interleaving |
| WorkerHandoff.LeaderNeverOverwritten | crates/itsi_server/src/server/thread_worker.rs:402-427 | whenever the waker is about to write the slot, the slot is empty |
| WorkerHandoff.NoJobLost | crates/itsi_server/src/server/thread_worker.rs:250-350 | jobs are dispatched in the order taken, each once; when the loop has ended, or is parked with the waker waiting for a job, every job taken has been dispatched |
| WorkerHandoff.ParkedGetsUnblocked | crates/itsi_server/src/server/thread_worker.rs:402-427 | no lost wake-up: while the fiber is parked the waker is stuck only for want of a job, no step of anyone sets the wake-up back, and each step of the waker brings it nearer |
| WorkerHandoff.FillTakesWhatWaits | crates/itsi_server/src/server/thread_worker.rs:267-279 | a waiting job is taken until the batch has 25 |
| WorkerHandoff.ParksIffIdle | crates/itsi_server/src/server/thread_worker.rs:329-346 | the fiber parks if and only if it finds no job waiting |
| WorkerHandoff.TerminatedTakesFew | crates/itsi_server/src/server/thread_worker.rs:324-327 | over every interleaving, once told to terminate this worker takes at most 26 jobs more |
| WorkerHandoff.NothingTakenAfterExit | crates/itsi_server/src/server/thread_worker.rs:300-350 | after the loop has ended, no continuation takes another job for this worker |
| RateLimiter.InMemoryRateLimiter.Cleanup | crates/itsi_server/src/services/rate_limiter.rs:244-250 | exactly the entries whose expiry has come go |
| RateLimiter.InMemoryRateLimiter.Increment | crates/itsi_server/src/services/rate_limiter.rs:297-327 | counter, expiry and remaining time after an optional clean-up; other keys stay |
| RateLimiter.InMemoryRateLimiter.CheckLimit | crates/itsi_server/src/services/rate_limiter.rs:329-343 | a request is admitted exactly while the count is within the limit |
| RateLimiter.InMemoryRateLimiter.BanIp | crates/itsi_server/src/services/rate_limiter.rs:253-271 | the address is banned for the duration from now on, and no other address is affected |
| RateLimiter.InMemoryRateLimiter.IsBanned | crates/itsi_server/src/services/rate_limiter.rs:274-286 | a ban counts until its expiry |
| RateLimiter.TimeToLive | crates/itsi_server/src/services/rate_limiter.rs:319-324 | the time to live is what is left in whole seconds, nothing once the entry has expired |
| RateLimiter.BoundStep | crates/itsi_server/src/services/rate_limiter.rs:297-343 | each operation uses up at least as much of the remaining room as it admits |
| RateLimiter.AtMostTwoWindows | crates/itsi_server/src/services/rate_limiter.rs:297-343 | for every history with any clean-ups, in every half-open interval one window long at most 2L-1 requests are admitted for a key with limit L, none for L = 0 |
| RateLimiter.BoundIsTight | crates/itsi_server/src/services/rate_limiter.rs:297-343 | for every limit and window a history reaches 2L-1 |
| RateLimiter.CleanupsUnnoticed | crates/itsi_server/src/services/rate_limiter.rs:244-250 | clean-ups at any points of a run change no answer, as long as no increment falls on the instant its entry expires |
| RateLimiter.CleanupsInvisibleIff | crates/itsi_server/src/services/rate_limiter.rs:244-250 | for every history, no way of inserting clean-ups changes any answer if and only if no increment falls on the instant its entry expires |
| RateLimiter.CleanupNoticedIff | crates/itsi_server/src/services/rate_limiter.rs:244-250 | a clean-up changes the next answer for a key if and only if clean-up, increment and expiry fall on the same instant |
| RedisLimiterStore.AfterKeeps | crates/itsi_server/src/services/rate_limiter.rs:424-493 | every step of any caller keeps the store sound, and a limiter once stored stays |
| RedisLimiterStore.Run | crates/itsi_server/src/services/rate_limiter.rs:424-493 | the same over every interleaving of callers |
| RedisLimiterStore.LimiterIsForTheUrl | crates/itsi_server/src/services/rate_limiter.rs:471-481 | over every interleaving, a successful call returns a limiter that a caller for the same URL made by connecting |
| RedisLimiterStore.FailureIsRemembered | crates/itsi_server/src/services/rate_limiter.rs:482-489 | over every interleaving, once a caller has reported that it could not connect to a URL, every call for it that starts later fails |
| RedisLimiterStore.EveryInterleaving | crates/itsi_server/src/services/rate_limiter.rs:424-493 | successful calls for one URL return the same limiter, at most one caller is connecting to a URL at a time, a URL is connected to successfully at most once, and a call that starts after a failure was noted fails |
| FrameStream.BufferedStream.PollFrameStream | crates/itsi_server/src/server/frame_stream.rs:34-61 | one poll of the inner stream, with the drain after a shutdown |
| FrameStream.BufferedStream.PollNext | crates/itsi_server/src/server/frame_stream.rs:92-141 | the poll loop ends and computes `Poll`, with frames, readiness, deadline and shutdown arbitrary at each turn |
| FrameStream.PollFrameConserves | crates/itsi_server/src/server/frame_stream.rs:34-61 | what the inner stream yields, followed by what stays queued, is what was queued followed by what arrived |
| FrameStream.PollConserves | crates/itsi_server/src/server/frame_stream.rs:92-141 | bytes yielded followed by bytes still inside are the bytes that were inside followed by those that arrived: nothing is lost, repeated or reordered by coalescing |
| FrameStream.PollKeepsTidy | crates/itsi_server/src/server/frame_stream.rs:92-141 | between polls the deadline is armed exactly while the buffer is non-empty and the buffer is shorter than the flush size; the stream ends only when nothing is left, unless shut down |
| FrameStream.ClosedPollProgress | crates/itsi_server/src/server/frame_stream.rs:92-141 | once the writer is gone, a poll whose receiver is not exhausted is never pending: it reports the end, or yields something and leaves less to yield |
| FrameStream.YieldsWholeBlocks | crates/itsi_server/src/server/frame_stream.rs:105-113 | as long as no deadline passes, no frame is empty and the stream goes on, every block yielded has at least the flush size |
| FrameStream.ShutdownCutsOff | crates/itsi_server/src/server/frame_stream.rs:44-59 | a shutdown found at an empty channel ends the stream; what is buffered is still yielded |
| FrameStream.OnlyShutdownCutsOff | crates/itsi_server/src/server/frame_stream.rs:34-61 | nothing but a shutdown cuts the stream off |
| FrameStream.NothingWaitsPastTheDeadline | crates/itsi_server/src/server/frame_stream.rs:126-136 | a poll that finds the deadline passed is not pending with bytes buffered |
| FrameStream.DeadlineFlushes | crates/itsi_server/src/server/frame_stream.rs:97-103 | once the deadline has passed, the next poll yields the whole buffer |
| FrameStream.EmptyFrameFlushes | crates/itsi_server/src/server/frame_stream.rs:109-113 | an empty frame makes the poll yield the buffer at once |
| HttpResponse.ItsiHttpResponse.SendFrame | crates/itsi_server/src/ruby_types/itsi_http_response.rs:243-268 | the first frame delivers the response with an open body, later ones append; fails exactly when the receiver is gone |
| HttpResponse.ItsiHttpResponse.SendAndClose | crates/itsi_server/src/ruby_types/itsi_http_response.rs:270-288 | a lone frame becomes a full body; otherwise the frame is appended and the writer closed |
| HttpResponse.ItsiHttpResponse.CloseWrite | crates/itsi_server/src/ruby_types/itsi_http_response.rs:290-293 | the writer is dropped, which ends the stream |
| HttpResponse.ItsiHttpResponse.Hijack | crates/itsi_server/src/ruby_types/itsi_http_response.rs:426-438 | the hijack is delivered if nothing was, the writer is closed, and the response stays where it is |
| HttpResponse.ItsiHttpResponse.Fail | crates/itsi_server/src/ruby_types/itsi_http_response.rs:222-241 | the response is replaced by an empty one with the error status, if it was not delivered before |
| HttpResponse.ItsiHttpResponse.SetStatus | crates/itsi_server/src/ruby_types/itsi_http_response.rs:414-424 | only a status of three digits is accepted, and only before delivery |
| HttpResponse.PollKeeps | crates/itsi_server/src/server/frame_stream.rs:92-141 | polling the body keeps emitted and held bytes equal to the accepted bytes |
| HttpResponse.AfterKeeps | crates/itsi_server/src/ruby_types/itsi_http_response.rs:222-311 | every call and every poll keeps the response sound |
| HttpResponse.Run | crates/itsi_server/src/ruby_types/itsi_http_response.rs:222-311 | the same over every sequence of calls and polls |
| HttpResponse.BodyIsWhatWasSent | crates/itsi_server/src/ruby_types/itsi_http_response.rs:243-293 | at most one response is ever delivered; the bytes emitted are a prefix of the bytes accepted, and equal to them once the stream ends without a shutdown |
| HttpResponse.ClosedBodyIsDelivered | crates/itsi_server/src/ruby_types/itsi_http_response.rs:290-293 | after any calls and polls that leave the writer closed, the client connected and the stream not cut off, enough further polls emit every byte accepted and report the end |
| HttpResponse.ClosedIsFinal | crates/itsi_server/src/ruby_types/itsi_http_response.rs:299-301 | after closing, no call delivers anything or adds to the body |
| ResponseHistory.DeliveredIs | crates/itsi_server/src/ruby_types/itsi_http_response.rs:222-288 | over every sequence of calls and polls: nothing is delivered before the first call that can deliver, and then exactly what that call stands for: a streamed body, the whole body of a lone frame (none for no bytes), the failure's status, or the hijack, with the last three-digit status set by then, 200 if none |
| ResponseHistory.AcceptedIs | crates/itsi_server/src/ruby_types/itsi_http_response.rs:243-288 | the body is made of the frames passed by calls from the first frame until the writer is closed or the client is gone, in order, with those that arrive during polls |
| ResponseHistory.ClientGetsTheFrames | crates/itsi_server/src/ruby_types/itsi_http_response.rs:243-293 | the client gets a prefix of those frames, and all of them once the body has ended without a shutdown |
| ResponseHistory.FrameAcceptedOrRefused | crates/itsi_server/src/ruby_types/itsi_http_response.rs:243-268 | a frame sent is refused with nothing changed in the body, or gets into the body, or the response was closed before |
| ResponseHistory.HijackedIff | crates/itsi_server/src/ruby_types/itsi_http_response.rs:303-305 | the response counts as hijacked if and only if it was |
| AcmeState.Machine.ProcessPem | crates/itsi_acme/src/state.rs:188-219 | a parsed certificate is deployed, stored if new, and renewal is timed; a bad one is reported and nothing else changes |
| AcmeState.Machine.PollNext | crates/itsi_acme/src/state.rs:327-415 | the poll loop computes `Poll` |
| AcmeState.RenewsForTheLastThird | crates/itsi_acme/src/state.rs:198-203 | at renewal at most a third of the validity is left, and exactly a third, to the nanosecond, unless less was left from the start; the wait is longer than zero if and only if more than a third is left |
| AcmeState.PollReportsTrue | crates/itsi_acme/src/state.rs:328-383 | each report says what has happened; a load that has answered is over; the certificate shown changes with the reports of a deployment only, to the certificate deployed |
| AcmeState.PassKeyComesFrom | crates/itsi_acme/src/state.rs:355-408 | the account key is the one in the cache if there is one, otherwise a new one that is being stored |
| AcmeState.TwoPassesAtMost | crates/itsi_acme/src/state.rs:328-414 | the pass after one that goes round again does not: a poll takes at most two passes |
| AcmeState.PollKeeps | crates/itsi_acme/src/state.rs:328-415 | a poll overwrites no pending store, order or timer, keeps the account key, never polls an order and a store together, and starts an order only when none is in flight, no store is pending and no timer is running |
| AcmeState.WaitHolds | crates/itsi_acme/src/state.rs:336-340 | a poll before the instant at which the timer runs out starts and finishes no order |
| AcmeState.AfterKeeps | crates/itsi_acme/src/state.rs:366-383 | the k-th failure in a row arms a timer of 2^min(k-1,16) seconds; a success resets k; at most one order is in flight |
| AcmeState.Run | crates/itsi_acme/src/state.rs:327-415 | the same over every run, with arbitrary results of loads, stores and orders |
| AcmeState.AccountKeyStays | crates/itsi_acme/src/state.rs:355-414 | in every continuation the account key stays, and every order uses it |
| AcmeState.BackoffHolds | crates/itsi_acme/src/state.rs:336-340 | over every run, from when a timer is armed to the instant it runs out no order starts or finishes and the timer stays |
| AcmeState.NoStartBefore | crates/itsi_acme/src/state.rs:336-340 | over every run, an order starts no earlier than any timer armed before it runs out |
| AcmeState.BackoffElapses | crates/itsi_acme/src/state.rs:366-383 | over every run, after the k-th failure in a row at an instant t, an order starts no earlier than t + 2^min(k-1,16) seconds |
| AcmeState.RenewalElapses | crates/itsi_acme/src/state.rs:188-219 | over every run, after a new certificate is deployed an order starts no earlier than when its renewal is due |
| AcmeState.RestartsIff | crates/itsi_acme/src/state.rs:336-383 | after a failed order a poll starts the next if and only if it finds the timer run out |
| AcmeState.FinishArmsTimerIff | crates/itsi_acme/src/state.rs:366-383 | the end of an order leaves a timer if and only if the order failed or its certificate parses |
| AcmeState.FinishDelaysIff | crates/itsi_acme/src/state.rs:366-383 | it leaves a timer that takes time if and only if the order failed, or its certificate parses and its renewal is not due yet |
| AcmeState.BadCertificateArmsNoTimer | crates/itsi_acme/src/state.rs:371-374 | after an issued certificate that does not parse there is no timer: any next poll starts another order |
| AcmeState.BadCertificatesOrderWithoutPause | crates/itsi_acme/src/state.rs:366-383 | for every n, a run from the start that places n orders at one instant, each answered by a certificate that does not parse |
| AcmeOrder.Authorize | crates/itsi_acme/src/state.rs:289-326 | the retry loop does and returns what `Authorized` says |
| AcmeOrder.AuthorizeSleepsAtMost31 | crates/itsi_acme/src/state.rs:309-325 | for any answers, one authorization sleeps at most 31 seconds in all |
| AcmeOrder.AuthorizeInstallsFirst | crates/itsi_acme/src/state.rs:296-308 | the domain's key is installed before the first challenge post |
| AcmeOrder.InterleaveKeepsKeys | crates/itsi_acme/src/state.rs:246-252 | any interleaving of authorizations keeps key before post |
| AcmeOrder.AwaitProcessed | crates/itsi_acme/src/state.rs:253-265 | the polling loop of a processing order |
| AcmeOrder.PlaceOrder | crates/itsi_acme/src/state.rs:242-287 | the order loop does and returns what `WholeOrder` says |
| AcmeOrder.CsrOnlyWhenReady | crates/itsi_acme/src/state.rs:266-287 | for any answers, a request is sent only right after seeing the order ready, a certificate is fetched only right after seeing it valid |
| AcmeOrder.ProcessingSleepsAtMost1023 | crates/itsi_acme/src/state.rs:253-265 | for any answers, one processing phase sleeps at most 1023 seconds in all |
| AcmeOrder.KeyInstalledBeforeEveryPost | crates/itsi_acme/src/state.rs:242-326 | for any answers and any interleaving, each challenge post of an order follows the installation of that domain's key |
| AcmeOutcome.AuthorizeSucceedsIff | crates/itsi_acme/src/state.rs:289-326 | an authorization succeeds if and only if one of its first six answers finds it valid after nothing but pending ones, each posted, and the first offering the challenge if there were any |
| AcmeOutcome.AuthorizeActs | crates/itsi_acme/src/state.rs:296-325 | its actions one by one: the key, then posts, with sleeps of 1, 2, 4, 8 and 16 seconds between them |
| AcmeOutcome.OrderIsToldByItsAnswers | crates/itsi_acme/src/state.rs:242-287 | for any answers, the order sees the statuses up to the first at which it stops (valid, invalid, a round not all of which succeeds, processing an eleventh time in a row), does about each exactly what belongs to it, and succeeds if and only if it stops at a valid order and gets the certificate |
| AcmeOutcome.OrderSucceedsIff | crates/itsi_acme/src/state.rs:242-287 | the order succeeds if and only if the download works and the answers lead, without a reason to stop before, to a valid order |
| AcmeResolver.Resolver.SetCert | crates/itsi_acme/src/resolver.rs:28-30 | ordinary clients are shown the new certificate; validation connections are not affected |
| AcmeResolver.Resolver.SetAuthKey | crates/itsi_acme/src/resolver.rs:31-33 | validation connections for the domain are shown the key; all others are not affected |
| AcmeResolver.Resolver.Resolve | crates/itsi_acme/src/resolver.rs:37-60 | validation is recognised by the one protocol name; without a server name or an installed key there is no answer |
| AcmeResolver.OnlyTheOneProtocol | crates/itsi_acme/src/resolver.rs:38-42 | only a client that offers the one protocol and no other is taken for a validation connection |
| AcmeResolver.ChallengeAnswered | crates/itsi_acme/src/resolver.rs:37-60 | in every order, when the server is told to validate a domain, a validation connection for it is shown the key last installed for it |
| AcmeResolver.OwnKeysIff | crates/itsi_acme/src/state.rs:246-252 | in every interleaving of a round each post finds the key of its own authorization installed, if and only if no two of its authorizations install for the same domain |
| AcmeResolver.SharedDomainMixesKeys | crates/itsi_acme/src/state.rs:296-308 | the interleaving of two authorizations for one domain in which a post finds the other's key |
| AcmeResolver.ChallengeAnsweredByOwnKey | crates/itsi_acme/src/resolver.rs:37-60 | in every order without such a pair, a validation connection is shown the very key made for the authorization that is posted |
| AcmeResolver.OthersUndisturbed | crates/itsi_acme/src/resolver.rs:37-60 | throughout an order ordinary clients are shown the same certificate |
| StaticFileCache.UnchangedMeansSame | crates/itsi_server/src/services/static_file_server.rs:463-467 | if the modification time is the same at two instants, the file was the same in between |
| StaticFileCache.RecheckKeepsEntry | crates/itsi_server/src/services/static_file_server.rs:462-476 | noting the time of a successful recheck keeps the entry right and makes it fresh |
| StaticFileCache.AfterKeeps | crates/itsi_server/src/services/static_file_server.rs:443-526 | every step of any request, every file change and every eviction keeps entries and requests sound |
| StaticFileCache.Run | crates/itsi_server/src/services/static_file_server.rs:443-585 | the same over every interleaving |
| StaticFileCache.ServedIsRecent | crates/itsi_server/src/services/static_file_server.rs:443-585 | over every interleaving, a request for a key is served a file that a request for that key was found to be for, with what it held less than the recheck interval (at least one instant) plus the stamping delay ago |
| StaticFileCache.ServedIsTheFileOfTheKey | crates/itsi_server/src/services/static_file_server.rs:443-526 | if keys always name the same file, a request is served the file of its key |
| StaticFileCache.RecheckServesAgain | crates/itsi_server/src/services/static_file_server.rs:462-476 | a stale entry whose file has not changed is stamped and served again without reading it |
| StaticFileCache.TooLargeIsDropped | crates/itsi_server/src/services/static_file_server.rs:478-483 | a changed file that has become too large leaves the cache, and its key is forgotten |
| StaticFileCache.OldestServed | crates/itsi_server/src/services/static_file_server.rs:170-194 | for every interval and delay, a run that serves what was on the disk only that bound less one instant ago |
| StaticFileCache.AgeBoundIff | crates/itsi_server/src/services/static_file_server.rs:443-585 | everything served is younger than a given age if and only if the age is at least interval plus delay |
| StaticFileCache.AlwaysRecentIff | crates/itsi_server/src/services/static_file_server.rs:443-585 | everything served is younger than the interval alone if and only if the time of the look is noted without delay |
| RackEnv.RackEnvPool.Checkout | gems/server/lib/itsi/rack_env_pool.rb:35-52 | the last hash returned with constants reset and foreign keys removed, or a copy of the template |
| RackEnv.RackEnvPool.Checkin | gems/server/lib/itsi/rack_env_pool.rb:54-56 | the hash joins the pool unchanged |
| RackEnv.ToRackEnv | gems/server/lib/itsi/http_request.rb:41-86 | the hash is filled key by key, then with the headers |
| RackEnv.HeadersKeepConstants | gems/server/lib/itsi/http_request.rb:67-84 | no header of any name can overwrite a constant key |
| RackEnv.HeaderName | gems/server/lib/itsi/http_request.rb:67-84 | a header field goes under its name in capitals with underscores behind `HTTP_`, two names without that |
| RackEnv.HeaderFound | gems/server/lib/itsi/http_request.rb:67-84 | each header field is found there unless a later one goes there too |
| RackEnv.RequestFound | gems/server/lib/itsi/http_request.rb:46-66 | each request key holds what stands for the request, whatever was in the hash and whatever header fields come; only `HTTP_HOST` and `HTTP_VERSION` may be taken over by one |
| RackEnv.ConstantsFound | gems/server/lib/itsi/rack_env_pool.rb:6-13 | the seven constant keys and their values |
| RackEnv.TemplateIsBlank | gems/server/lib/itsi/rack_env_pool.rb:14-30 | a fresh hash is blank in the keys of the request |
| RackEnv.RecycledEqualsFreshIff | gems/server/lib/itsi/rack_env_pool.rb:6-52 | for every recycled hash and request the result equals that on a fresh copy if and only if the seven constant keys are present and the error stream is the one the template was made with |
| RackEnv.PoolUnnoticed | gems/server/lib/itsi/rack_env_pool.rb:35-56 | over every history whose handlers keep the seven constant keys, the pool is not noticeable in any request |

## Left out

- NativeScheduler.Scheduler.RegisterIoWait: the timeout argument, which the code ignores, is dropped, and so are errors of the poller other than refusing a registered descriptor.
- Timers.DueInOrderExact: the heap is a multiset with its least element on top; the arrangement of the heap is a library's.
- FiberScheduler.Run: `tick` is not one method; its parts are steps, so that other threads may act between them. Exceptions that escape a resumed fiber are left out.
- FiberScheduler.Scheduler.ResumeToken: two threads racing on the unlocked counter are not modelled; tokens are taken to be increasing.
- WorkerHandoff.Run: the two loops are cut into atomic steps on values rather than written as methods, because their meaning is in the interleaving; garbage collection between requests and the error exit of `block` and `yield` are left out.
- Workers without a scheduler (`accept_loop`, `process_one`): a plain loop over the channel.
- RateLimiter.AtMostTwoWindows: keys are opaque; counters do not overflow 64 bits.
- RateLimiter.InMemoryRateLimiter.BanIp: the reason text of a ban is not stored by the code and not modelled.
- RedisLimiterStore.Run: connection set-up is one step that succeeds or fails; the Redis commands themselves are left out.
- ChunkedDecoder.ParseSizeLine: a size line with Unicode white space outside ASCII counts as unreadable; chunk extensions and trailers are not decoded by the code either.
- HttpResponse.Run: calls are atomic, the channel's capacity of 256 frames is not bounded, and headers are left out.
- Bridging of hijacked sockets and of upgraded connections: input and output only.
- AcmeState.Machine.ProcessPem: certificate parsing, key generation and the caches are arbitrary functions and results.
- AcmeOrder.PlaceOrder: building the request and signing are left out, as are the addresses of the server's resources.
- StaticFileCache.Run: the code of `resolve` is cut into atomic steps on values; `last_checked` is written by several requests at once, and the order of those writes is what matters. Requests that race with a vanishing file end unserved where the code panics.
- Compressed variants, byte ranges, directory listings and not-found behaviour of the static file server: formatting and input.
- RackEnv.RackEnvPool.Checkout: the order of a hash's keys and default values of hashes are not modelled.
- Ruby bindings, process and signal handling, configuration, tracing, password hashing, gRPC and MIME tables: tables, wrappers and calls into libraries.
