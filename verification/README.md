# Verification of the FirstVoid backend

A Dafny model of the algorithms and protocols at the centre of the backend, with proofs of what
they promise. `dafny verify dfyconfig.toml` checks the project.

Each module follows one component of the program:

| module | program | subject |
|---|---|---|
| `Crawler`, `LinkSearch`, `CrawlScope` | `app/rag/crawler.py` | the batched crawl, the one-queue breadth-first search it refines, and what it reaches |
| `RateLimit`, `RateExact` | `app/services/ratelimit.py` | token buckets, with and without forgetting idle ones; exactly which calls they grant |
| `QuietHours`, `Reminders`, `ReminderFaults`, `ReminderTimes`, `ReminderWorker` | `app/services/reminders.py` | quiet hours; the reminder protocol as a step relation; how far its promises reach; when and why rows change; the worker methods as stretches of its runs |
| `JobQueue`, `JobOutcome` | `app/rag/worker.py` | the job queue as a step relation, one turn of the worker loop, and why jobs change |
| `AgentGraph`, `GraphRuns`, `Turn`, `Replies`, `TurnOutcome` | `app/graph/`, `app/services/turn.py`, `app/api/chat.py` | graph runs, the two transports that report them, which reply comes out, and what a turn comes to |
| `Scheduling`, `Booking`, `OpenHours` | `app/services/scheduling.py`, `app/tools/booking.py` | slot enumeration, availability search, and both by calendar and clock |
| `Resolver`, `ConfigCache`, `ConfigAdmin` | `app/config/resolver.py`, `app/services/tenants.py`, `app/api/admin.py` | layered config, its cache, the operations that invalidate it, and what each does and says |
| `Chunker`, `Ingest`, `IngestRows` | `app/rag/chunker.py`, `app/rag/ingest.py` | chunking, the incremental index, and what its rows say |
| `Fusion`, `Retriever`, `RetrieverAnswer` | `app/rag/fusion.py`, `app/rag/retriever.py` | rank fusion, the part of retrieval around it, and which chunks it answers |
| `Retention` | `app/services/retention.py`, `app/db/models.py` | purge and erasure |
| `Prelude` | | optional values, `str.strip`, slices |

Where the program changes things step by step, a method with its loops is proved against a function
or a step relation, and the properties are proved about that: what the function means without naming it,
and what holds over whole runs. Protocols are step relations over the
rows and what each worker holds: the interleavings, crashes and exceptions are the runs. Model
answers, mail delivery, SQL results and HTML parsing are arbitrary inputs. Times are integers
(microseconds; seconds in `Retention`), scores and tokens exact reals.

## Where code and documentation differ

- `Reminders`: the module's text says a double send cannot happen. Each fault that hits a
  worker after the mail commit allows one mail more, up to three (`MailsIff`), and an exception after a
  committed `_finish` takes a sent reminder up again or fails it (`SentIsReopened`, `SentIsFailed`,
  `FinishedStayIff`).
- `Reminders`: the retry limit is the literal 3 of the handler; the setting `max_attempts`
  (`app/config/schema.py:98`) is not read.
- `Booking`: the buffer is kept only inside the queried window (`BufferIff`), so never over a whole
  candidate list (`BufferOfAllIff`, `BufferIsNotKeptAtTheEdge`).
- `Replies`: a blank last answer is not inspected, although the JSON reply then comes from an older
  message (`GuardedIff`, `BlankAnswerBringsBackHistory`). The SSE reply is then the streamed text; the
  two agree only when the agent spoke with one voice (`RepliesAgreeIff`, `BlankAnswerMayAgree`).
- `Turn`: the two endpoints are said to behave alike; in a turn without tool calls the SSE answer leaves
  the known intake out (`TransportsAgree`, `IntakeIsLeftOut`).
- `Chunker`: with overlap 0 the carried tail is the whole chunk (`BoundIff`).
- `ConfigCache`: the cache key is not injective for tenant keys that extend one another, nor for a
  location called `-`; other names are safe (`NamesDecide`, `NeverToldIff`,
  `DashLocationIsMixedUp`, `ExtendedKeyIsMixedUp`).
- `Retention`: a run that stops at its ceiling reports the detached leads of all expired
  conversations (`ReportedLinksIff`, `ReportIsWrong`); a run that ends exactly on it reports itself
  incomplete with nothing left (`CompleteIff`, `FullRunSaysIncomplete`); erasure reports tables as
  truncated whose rows the final cascade removes (`Tables.EraseTenant`).

## Model

| member | source | states |
|---|---|---|
| Crawler.CollectLinks | app/rag/crawler.py:64-77 | the loop over the hrefs returns the accepted links, in document order |
| Crawler.LinksStayOnHost | app/rag/crawler.py:67-76 | every accepted link is http(s) and on the start host |
| Crawler.LinksAreNoAssets | app/rag/crawler.py:74-75 | no accepted link ends in a skipped suffix |
| Crawler.ReachableIsOnHost | app/rag/crawler.py:64-77 | so everything reachable by links stays on the start host |
| Crawler.QueueLinks | app/rag/crawler.py:138-142 | the innermost loop refines one enlisting step of the one-queue search, seen cap included |
| Crawler.HandleResult | app/rag/crawler.py:120-142 | one fetched result is one visit of the search: same pages, same seen set, same queue |
| Crawler.Crawl | app/rag/crawler.py:80-145 | whatever the batch size, the batched loop terminates and returns exactly the pages of the one-queue breadth-first search, cut at max_pages; it stops with an empty frontier and the whole seen set, or with max_pages pages |
| LinkSearch.VisitKeepsInv | app/rag/crawler.py:100-142 | each step keeps: queue depths never fall and differ by at most one, no URL is queued twice, every seen URL is queued or finished, and carries its shortest distance |
| LinkSearch.SearchExhausts | app/rag/crawler.py:100-142 | every run reaches an exhausted state in which the invariants hold |
| LinkSearch.SeenAtShortestDistance | app/rag/crawler.py:138-142 | every seen URL is recorded at its shortest link distance, at most max_depth, cap or no cap |
| LinkSearch.SeenIsTheBall | app/rag/crawler.py:100-142 | if the cap turned nothing away, the visited URLs are exactly those within max_depth links |
| LinkSearch.CapIsHarmlessOnSmallSites | app/rag/crawler.py:140 | a site with at most 4*max_pages URLs in range never meets the cap |
| LinkSearch.CapIff | app/rag/crawler.py:140 | a link is turned away if and only if more URLs are in range than the cap |
| LinkSearch.CrawlIsSound | app/rag/crawler.py:80-145 | at most max_pages pages, distinct URLs, each what its URL serves, in range, in order of distance |
| LinkSearch.CrawlIsComplete | app/rag/crawler.py:80-145 | on such a site, a page left out means max_pages pages were returned and none of them is farther |
| LinkSearch.EnlistInOrder | app/rag/crawler.py:139-142 | new links join the end of the queue in the order they are met |
| CrawlScope.NormaliseIff | app/rag/crawler.py:49-51 | a URL is normalised by cutting its fragment and the slashes that end it, unless it is nothing else |
| CrawlScope.LinksMeaning | app/rag/crawler.py:64-77 | the links of a page are the targets of its accepted hrefs, all of them and nothing else, in document order; accepted is spelled out: not blank, none of four prefixes, http or https, same host, none of sixteen suffixes |
| CrawlScope.VisitedIff | app/rag/crawler.py:100-142 | on a site within the seen cap, the crawl sees a URL if and only if it is at most max_depth accepted links from the start page |
| CrawlScope.LinkedPagesAreReturned | app/rag/crawler.py:117-145 | every returned page is the page at its URL (stripped title cut at 300, stripped text over 120 characters), in range; and each such page is returned unless max_pages pages are |
| RateLimit.RateLimiter.constructor | app/services/ratelimit.py:25-30 | a new limiter is the abstract one with no buckets |
| RateLimit.RateLimiter.Allow | app/services/ratelimit.py:32-47 | the method is the abstract step, answer and new state |
| RateLimit.RateLimiter.SweepIdle | app/services/ratelimit.py:49-56 | the loop drops exactly the idle buckets, and only when 300 seconds have passed |
| RateLimit.AllowKeepsValid | app/services/ratelimit.py:32-47 | 0 <= tokens <= burst, always |
| RateLimit.AllowSimulates | app/services/ratelimit.py:32-56 | one call keeps the sweeping limiter and a never-forgetting one in step: dropped buckets would be full |
| RateLimit.RunsAgree | app/services/ratelimit.py:32-56 | from states in step, both give the same answers on every ordered trace |
| RateLimit.SweepingIsUnobservableIff | app/services/ratelimit.py:25-56 | no trace can tell the sweep, if and only if burst >= 1 and 900 seconds refill the burst |
| RateLimit.ProbeTellsThemApart | app/services/ratelimit.py:49-56 | the trace that tells it, when 900 seconds do not refill the burst |
| RateLimit.NoBurstTellsThemApart | app/services/ratelimit.py:36-47 | the trace that tells it, when burst < 1 |
| RateLimit.GrantsAreBounded | app/services/ratelimit.py:32-47 | grants to a key in an interval are paid by what it had and what trickles in |
| RateLimit.RateBound | app/services/ratelimit.py:25-56 | at most burst + rate*(t-s) grants per key in any interval of any trace, across sweeps and re-created buckets |
| RateLimit.RateBoundIff | app/services/ratelimit.py:25-56 | the bound holds of every trace if and only if burst >= 1 and 900 seconds refill the burst |
| RateLimit.ConfiguredLimitersForgetSafely | app/services/ratelimit.py:59-64 | all three configured limiters meet the condition |
| RateExact.GrantedIff | app/services/ratelimit.py:32-47 | a call is granted if and only if, with it, every interval from an earlier call of its key stays within burst + rate*length |
| RateExact.ConfiguredLimits | app/services/ratelimit.py:59-64 | the same for the three limiters, in their numbers |
| RateExact.SweepForgets | app/services/ratelimit.py:49-56 | a sweep, five minutes after the last, forgets exactly the buckets not touched for fifteen |
| QuietHours.ParseRangesWrapping | app/services/reminders.py:49-60 | malformed items are dropped, inverted ranges kept |
| QuietHours.InQuietHours | app/services/reminders.py:37-46 | the loop decides membership of the local time of day in some range, wrapping ones included |
| QuietHours.ShiftOutOfQuiet | app/services/reminders.py:63-70 | the loop computes the first open hourly point of 24, else the input |
| QuietHours.ShiftIsLeast | app/services/reminders.py:63-70 | the result is the least whole-hour shift that is not quiet; it is quiet, and the input, exactly when all 24 hourly points are |
| QuietHours.OpenHourIsEnough | app/services/reminders.py:63-70 | one open hour anywhere on the clock is enough for every input |
| QuietHours.FiftyNineMinutesAreNotEnough | app/services/reminders.py:63-70 | 59 open minutes are not |
| QuietHours.QuietIff | app/services/reminders.py:37-60 | a moment is quiet if and only if its local time of day lies in a range of two valid times, over midnight when the second is earlier |
| Reminders.StepKeepsInv | app/services/reminders.py:88-234 | every step of every worker, canceller and planner keeps the protocol invariant |
| Reminders.Safety | app/services/reminders.py:115-234 | in every reachable state, whatever faults: one row per appointment and truncated key, one owner per row and that row in sending (or finished, and with the handler), attempts counted, at most 3 claims and 3 mails a row, and at most one mail more than faults that hit a worker that had just mailed |
| Reminders.RowsInHandAreSending | app/services/reminders.py:127-157 | as long as nothing raises after a committed finish, a row in hand is in sending |
| Reminders.TerminalIsFinal | app/services/reminders.py:127-141 | and then sent, failed and cancelled never change |
| Reminders.CrashedClaimIsNeverReclaimed | app/services/reminders.py:130-141 | a claim whose worker died stays claimed; the row is never taken up or mailed again |
| Reminders.ClearedFollowsRead | app/services/reminders.py:172-186 | a worker past the checks read the appointment as booked and to come, in this attempt |
| Reminders.MailFollowsClearance | app/services/reminders.py:176-213 | every queued mail follows such a read, and is about that appointment |
| Reminders.LateFaultReopens | app/services/reminders.py:199-233 | an exception after a committed finish: the row is planned again, or failed at the third attempt, and keeps its status exactly if it had failed at the third attempt for want of an address |
| ReminderFaults.MailsPerFault | app/services/reminders.py:160-234 | from the initial state, a run with n faults after a mail that mails n+1 times |
| ReminderFaults.MailsIff | app/services/reminders.py:211-233 | over all runs, k faults after a mail, before its finish or after, allow at most min(k+1, 3) mails and no smaller bound; at most one mail if and only if k is 0 |
| ReminderFaults.SentIsReopened | app/services/reminders.py:199-233 | a run from the initial state in which a sent reminder is planned again |
| ReminderFaults.SentIsFailed | app/services/reminders.py:219-223 | a run from the initial state in which a sent reminder becomes failed |
| ReminderFaults.FinishedStayIff | app/services/reminders.py:144-157 | finished rows stay finished in every run with at most n exceptions after a committed finish, if and only if n is 0 |
| Reminders.AllPlannedStays | app/services/reminders.py:88-108 | a planned rule keeps its row until the appointment is deleted |
| Reminders.PlanningAgainIsIdle | app/services/reminders.py:73-112 | planning again after any run changes nothing |
| ReminderTimes.NeverEarly | app/services/reminders.py:88-141 | in any run, a reminder planned for t is not claimed before t |
| ReminderTimes.NotAgainBefore | app/services/reminders.py:224-233 | and one put back is not claimed again for ten minutes |
| ReminderTimes.PlannedUntilClaimed | app/services/reminders.py:93-104 | until it is claimed a row holds what was planned - appointment, first 48 characters of the key, time - and may be claimed from then on unless cancelled |
| ReminderTimes.CancelChanges | app/services/reminders.py:115-125 | cancelling turns the planned reminders of the appointment into cancelled ones and changes nothing else |
| ReminderTimes.CancelledIsNeverMailed | app/services/reminders.py:115-141 | in any run, a reminder still planned when its appointment is cancelled is never claimed or mailed after that |
| ReminderTimes.RowsHaveAppts | app/db/models.py:327-335 | no row outlives its appointment, and only the deletion of its appointment removes one |
| ReminderTimes.WhyFinished | app/services/reminders.py:144-223 | a row becomes sent only after its mail was queued in that attempt, failed only for want of an address or at a fault in the third attempt, cancelled only by a cancellation or after a read that found the appointment gone, not booked or begun |
| ReminderTimes.PlanningPlans | app/services/reminders.py:63-112 | planning adds exactly the rows the rules ask for - first of its key, time still to come, moved by the fewest whole hours out of quiet hours - and leaves every other row alone |
| ReminderWorker.Database.EarliestDue | app/services/reminders.py:132-138 | the claim query: a due planned row with the least send time, if there is one |
| ReminderWorker.ClaimOne | app/services/reminders.py:165-168 | a row is claimed exactly when one is due, and it is the earliest |
| ReminderWorker.TryToSend | app/services/reminders.py:171-217 | the try block ends in one finish, or raises with the row still in hand, and only if something raises; left alone, it refuses exactly the appointment that is gone, not booked or begun, and else mails if there is an address |
| ReminderWorker.Handle | app/services/reminders.py:219-234 | the handler gives the row up at the third attempt and puts it back before; if it raises, the row is let go as it is, or after its write |
| ReminderWorker.SendDue | app/services/reminders.py:160-238 | amid any other transactions and with an exception at any statement, before or after its commit: a sweep is a stretch of legal protocol steps, holds nothing at its end, claims at most `limit` rows - fewer only if nothing is due any more or an exception gets out - and tallies every claim by how it ended; left alone, it deals with due rows and touches no other |
| ReminderWorker.PlanForAppointment | app/services/reminders.py:73-112 | amid other transactions and exceptions: when it returns, every rule still to come has its row unless the appointment was deleted meanwhile; left alone, it inserts exactly the rows the rules ask for, at their times, and returns their number |
| ReminderWorker.ExecutionIsRun | app/services/reminders.py:160-238 | what a worker logs is a run the safety results apply to |
| JobQueue.StepKeepsInv | app/rag/worker.py:31-57 | every claim, outcome, retry and crash keeps the queue invariant |
| JobQueue.Safety | app/rag/worker.py:31-57 | one owner per job, at most 4 attempts when pending, at most 5 claims, the k-th and next at least k*k minutes apart |
| JobQueue.FifthClaimIsLate | app/rag/worker.py:55-57 | a fifth claim comes at least 30 minutes after the first |
| JobQueue.TerminalIsFinal | app/rag/worker.py:46-52 | done and failed are for good |
| JobQueue.AtMostFiveClaimsEach | app/rag/worker.py:188-206 | without new jobs, n jobs are claimed at most 5n times |
| JobQueue.WorkShrinks | app/rag/worker.py:179-206 | without crashes, every worker step takes from a measure of what is left |
| JobQueue.NeverStuck | app/rag/worker.py:179-206 | while a job is not done or failed, some step is possible after some wait |
| JobQueue.QueueDrains | app/rag/worker.py:159-206 | so the run is bounded, and when it can go no further every job is done or failed |
| JobQueue.ClaimDue | app/rag/worker.py:31-44 | the earliest due job, if any is due |
| JobQueue.Turn | app/rag/worker.py:179-206 | one turn of the loop, amid any other steps: claims the earliest due job, handles it as its kind says, writes the outcome, and holds nothing after |
| JobOutcome.WhyChanged | app/rag/worker.py:179-206 | in any run, a job is done only if its handler said so, failed only if it said so or raised at the fifth attempt, and pending again only after a raise before that, due 1, 4, 9 or 16 minutes after it |
| JobOutcome.Reports | app/rag/worker.py:123-156 | what each kind of job reports for each way its delivery ends |
| AgentGraph.RunTools | app/graph/nodes/agent.py:95-144 | the loop over the calls builds the intake, escalation and messages of the specification |
| GraphRuns.LoopPath | app/graph/build.py:58-77 | an unblocked loop is agent (tools agent)^(k-1) guard_out |
| GraphRuns.RoundsBound | app/graph/build.py:32-42 | with 1 <= k <= max(1, max_graph_iterations) |
| GraphRuns.RunPath | app/graph/build.py:58-77 | every run is the two parallel nodes and then the refusing agent, or that loop |
| GraphRuns.RunUsage | app/graph/nodes/agent.py:82-92 | usage is the sum over the agent calls; a blocked run is free |
| GraphRuns.RunKeeps | app/graph/nodes/agent.py:113-144 | from any point of a run on, escalation stays and no intake key disappears |
| Turn.ExtractReply | app/services/turn.py:134-138 | the loop finds the latest non-blank assistant message |
| Turn.Rows.CloseTurn | app/services/turn.py:141-184 | what is stored, rolled up and answered, from the final dict |
| Turn.Events | app/api/chat.py:127-160 | the stream loop computes the fold of the node updates, and the reply or the streamed text |
| Turn.FoldsAgree | app/api/chat.py:139-146 | the hand-written fold and the reducers stay in agreement on every key, step by step |
| Turn.OrderShowsInTraceOnly | app/graph/build.py:67-71 | the order of the two parallel nodes shows in the trace only |
| Turn.TransportsAgree | app/services/turn.py:141-184 | both endpoints persist and report the same but for the order of two trace entries, and the answer's intake field: without tool calls (blocked, one iteration allowed, or a first answer without calls) the SSE side answers {} and the JSON side the intake so far |
| Turn.SseIntake | app/api/chat.py:139-146 | the hand-written fold ends with an intake if and only if the turn is not blocked, may iterate twice, and its first answer calls a tool |
| Turn.TracesAgree | app/api/chat.py:143-146 | the traces are the two head entries, in the order seen, and then one list |
| TurnOutcome.ToolsMeaning | app/graph/nodes/agent.py:95-144 | the tools node: one message a call, in order; escalated if and only if it was or an enabled escalation succeeded; at each intake key what the last enabled capture that succeeded says, else the old value |
| TurnOutcome.RoundsMeaning | app/graph/build.py:32-42 | the model is asked until an answer has no tool call or the limit is reached |
| TurnOutcome.StoppedTurn | app/graph/nodes/guards.py:82-112 | a message the guard finds prohibited or injected: one refusal, no tokens, stored as blocked with its reason, escalated if and only if prohibited |
| TurnOutcome.AnsweredTurn | app/services/turn.py:141-184 | any other message: trace, block, reason, tokens, escalation and intake as stored and answered, in terms of the answers, the tool results and the verdicts |
| TurnOutcome.AnsweredReply | app/graph/nodes/guards.py:115-143 | its reply is the refusal if the guard objects to the last answer, else the latest answer that is not blank, else the one of the history |
| TurnOutcome.StreamedText | app/api/chat.py:148-153 | the streamed text is that of the agent node, in order, and nothing else |
| TurnOutcome.ReplyMeaning | app/services/turn.py:134-138 | the last assistant message that is not blank, if there is one |
| Replies.ReplyBeforeGuard | app/services/turn.py:134-138 | the reply in the messages guard_out sees is the latest non-blank answer of the turn, or else the one of the history |
| Replies.RepliesAgreeIff | app/api/chat.py:146-160 | on every stream of a run the two endpoints give the same reply if and only if the last message is a non-blank assistant message, or the agent said one non-blank text and nothing else, or nothing at all with no earlier reply to fall back on |
| Replies.BlankAnswerMayAgree | app/api/chat.py:160 | a blank last message with which they agree |
| Replies.IntakeIsLeftOut | app/services/turn.py:176-180 | a turn with a known name for which the JSON endpoint answers it and the SSE endpoint answers {}, while both persist it |
| Turn.LoopEndsInGuardOut | app/graph/nodes/guards.py:115-143 | an unblocked loop ends in guard_out looking at the last answer of the model |
| Turn.RepliesAreGuarded | app/graph/nodes/guards.py:115-143 | a reply is the refusal, or cleared by guard_out, or recorded as unverified, or the tenant prohibits nothing - as long as last message and refusal are not blank |
| Turn.BlankAnswersAreNotChecked | app/graph/nodes/guards.py:121-123 | a blank last message goes unchecked and the reply reaches back past it |
| Replies.GuardedIff | app/graph/nodes/guards.py:115-143 | the reply is guarded whatever the guard model says, if and only if the turn is blocked, nothing is prohibited, the last answer is not blank, or the reply it reaches back to is empty or the refusal |
| Replies.BlankAnswerBringsBackHistory | app/graph/nodes/guards.py:121-123 | a turn whose JSON reply is a text of the history that the guard objects to, and whose SSE reply is empty |
| Scheduling.ParseRanges | app/services/scheduling.py:23-40 | malformed and inverted ranges are dropped |
| Scheduling.FillFromWindow | app/services/scheduling.py:83-89 | the innermost loop appends the starts of one window, up to the limit |
| Scheduling.CandidateStarts | app/services/scheduling.py:57-90 | the nested loops return the first max_slots starts of the full enumeration |
| Scheduling.AllStartsMeaning | app/services/scheduling.py:78-89 | the enumeration holds exactly the times that are window_start + n*step, fit in a window of an open day, and respect the lead time |
| Scheduling.CandidatesAscend | app/services/scheduling.py:78-89 | with each day's ranges in order the output ascends strictly across windows and days |
| OpenHours.OpenIff | app/services/scheduling.py:23-90 | a moment is an open start if and only if, by the local calendar and clock, its day is in the horizon and not closed, a valid range of its weekday has room for a slot there, whole steps from its start, and the lead time is kept |
| OpenHours.CandidatesMeaning | app/tools/booking.py:95-108 | the search takes the first min(6*max_slots, 150) starts, at least one |
| Booking.FreeMeaning | app/services/scheduling.py:97-113 | what is left are exactly the candidates that, buffer included, meet no busy block |
| Booking.SearchReal | app/tools/booking.py:89-141 | over-fetch, query window, subtraction and trim, with both degraded paths |
| Booking.BufferIsKept | app/tools/booking.py:122-128 | the buffer is kept to every event that meets the queried window |
| Booking.NoDoubleOffer | app/tools/booking.py:122-134 | no offered slot overlaps any event of the calendar, in the answer or not |
| Booking.NothingIsHeldBack | app/tools/booking.py:95-134 | fewer than max_slots back from an unexhausted over-fetch: every open start is offered or collides |
| Booking.EarliestFreeFirst | app/tools/booking.py:126-131 | the earliest free starts are the ones offered |
| Booking.BufferIff | app/tools/booking.py:123-133 | whenever a slot is offered its buffer is safe from every event, if and only if the buffer is 0 or the queried window holds all of it |
| Booking.BufferOfAllIff | app/tools/booking.py:123-128 | over a whole candidate list the buffer is safe if and only if it is 0 |
| Booking.BufferIsNotKeptAtTheEdge | app/tools/booking.py:123-128 | a week of opening hours whose one candidate is offered between two events that cut its buffer |
| Resolver.DeepMerge | app/config/resolver.py:18-29 | the loop over a copy computes the merge, key by key |
| Resolver.RightIdentity | app/config/resolver.py:18-29 | {} is a right identity |
| Resolver.Idempotent | app/config/resolver.py:18-29 | merging the same override again changes nothing |
| Resolver.MergeAbsorbed | app/config/resolver.py:22-28 | a layer survives a merge onto another unchanged exactly when it decides every key of it and holds no loose None |
| Resolver.Associative | app/config/resolver.py:18-29 | the merge is associative on three layers exactly when they do not clash: no path with dicts outside and a scalar or list between them that the last dict does not absorb |
| Resolver.ScalarBetweenDictsClashes | app/config/resolver.py:25-28 | layers that do clash, and the two results |
| Resolver.LeafOfMerge | app/config/resolver.py:18-29 | what a merge does to one leaf, in terms of what the override says at its path |
| Resolver.LastLayerDecides | app/config/resolver.py:39-42 | each leaf of the resolved config is the word of the last layer that says anything there |
| Resolver.Resolve | app/config/resolver.py:32-43 | resolve folds pack, tenant, location and channel profile in that order |
| Resolver.ChannelProfileWins | app/config/resolver.py:42 | whatever the channel profile sets is what the config has |
| ConfigCache.KeysMeet | app/config/resolver.py:46-47 | two cache keys are equal exactly when channel and version agree and tenant and location read the same |
| ConfigCache.TenantsMeet | app/config/resolver.py:46-47 | two tenants can share a key exactly when they are one, or one key extends the other after a colon |
| ConfigCache.ConfigCache.GetCached | app/config/resolver.py:50-58 | a stale entry is dropped and not served |
| ConfigCache.ConfigCache.PutCached | app/config/resolver.py:61-62 | the entry is stored with its time |
| ConfigCache.ConfigCache.Invalidate | app/config/resolver.py:65-67 | exactly the entries with the prefix go |
| ConfigCache.Service.CreateTenant | app/api/admin.py:80-105 | refusals 400, 409 and 500, else one new row |
| ConfigCache.Service.UpdateTenant | app/api/admin.py:137-152 | shallow override merge, version bump, own entries invalidated |
| ConfigCache.Service.AddLocation | app/api/admin.py:155-176 | a new location row and own entries invalidated; a duplicate changes nothing |
| ConfigCache.Service.EraseTenant | app/api/admin.py:298-316 | confirmation, row removed, own entries invalidated |
| ConfigCache.Service.ResolveTenant | app/services/tenants.py:71-111 | refusals, then a cached or freshly resolved config |
| ConfigCache.OneKeyOneConfig | app/config/resolver.py:46-47 | under the naming rules, requests that share a key want one config |
| ConfigCache.ChangeKeepsCoherent | app/api/admin.py:149-175 | after any admin operation every surviving entry is current |
| ConfigCache.StepIsInvisible | app/services/tenants.py:100-109 | each operation answers as without a cache, and keeps the invariant |
| ConfigCache.CacheIsInvisible | app/services/tenants.py:71-111 | no sequence of creates, patches, locations, erasures and requests can tell that there is a cache, whatever the clock does |
| ConfigCache.InvisibleIff | app/services/tenants.py:100-109 | over fixed rows no sequence of requests can tell the cache if and only if no two served requests that share a key want different configs |
| ConfigCache.NamesDecide | app/config/resolver.py:46-47 | that holds whatever is configured if and only if no served tenant key extends another at the same version and none has a location called - |
| ConfigCache.NeverToldIff | app/config/resolver.py:46-67 | no sequence of creates, patches, locations, erasures and requests over given tenant keys and location names can tell the cache if and only if no key extends another and none may be given a location called - |
| ConfigCache.ExtendedIsTold | app/config/resolver.py:46-47 | for any key that extends another, a sequence that tells it |
| ConfigCache.DashIsTold | app/config/resolver.py:47 | for any key, a sequence with a location called - that tells it |
| ConfigCache.ColonFreeKeysAreWellNamed | app/config/resolver.py:46-47 | tenant keys without a colon satisfy the naming rule |
| ConfigCache.DashLocationIsMixedUp | app/config/resolver.py:47 | two requests to a tenant with a location called -: the second is answered with the other business name |
| ConfigCache.ExtendedKeyIsMixedUp | app/config/resolver.py:47 | two requests to tenants acme and acme:east: the second is answered with the first one's business name |
| ConfigAdmin.PatchMeaning | app/api/admin.py:137-152 | a patch sets its keys, keeps the others, bumps the version by one, drops exactly the own cache entries, and touches nothing else |
| ConfigAdmin.AddLocationMeaning | app/api/admin.py:155-176 | a new location with its overrides, or 404, or 500 for one that exists |
| ConfigAdmin.CreateMeaning | app/api/admin.py:80-105 | the row as given, or 400, 409, 500 |
| ConfigAdmin.EraseMeaning | app/api/admin.py:298-316 | the tenant and its cache entries gone, or 400, 404 |
| ConfigAdmin.RequestMeaning | app/services/tenants.py:79-86 | 404 for an unknown key, 403 for a paused tenant or a web origin not allowed, else a config |
| ConfigAdmin.ResolvedLeaf | app/config/resolver.py:32-43 | each leaf of a config is what the channel profile says there, or else the location, the tenant with its name, the pack or the generic one |
| ConfigAdmin.PatchIsServed | app/api/admin.py:149-152 | a request right after a patch is answered with the patched value at every path it sets, unless location or channel profile speak there |
| ConfigAdmin.AgeDecides | app/config/resolver.py:50-58 | an entry is served for 60 seconds and dropped after |
| Chunker.Chunk | app/rag/chunker.py:15-42 | the loops compute the specification, early returns, filter and the ValueError of a zero step included |
| Chunker.CutUp | app/rag/chunker.py:33-34 | the range loop yields the slices of an oversize piece |
| Chunker.JoinEnds | app/rag/chunker.py:28-38 | joining and stripping never touches the piece itself |
| Chunker.BoundIff | app/rag/chunker.py:26-41 | every chunk of every text is at most target+overlap+1 long if and only if the overlap is positive |
| Chunker.BoundFailsWithoutOverlap | app/rag/chunker.py:37 | the two pieces that break the bound when overlap is 0 |
| Chunker.SmallPieceIsWhole | app/rag/chunker.py:26-41 | each piece of at most the target length is a contiguous part of the chunk it lands in |
| Chunker.SmallPiecesInOrder | app/rag/chunker.py:26-41 | in document order: never in an earlier chunk, one after the other within one |
| Chunker.LongSentencesAreReturned | app/rag/chunker.py:42 | such a piece of more than 40 characters survives the filter |
| Chunker.OversizeIsCovered | app/rag/chunker.py:32-42 | with overlap >= 40 every character of an oversize piece lies in a returned chunk |
| Chunker.CoverageIff | app/rag/chunker.py:32-42 | and only then: below 40 some piece loses its last character |
| Chunker.DefaultSizes | app/rag/chunker.py:15 | the default sizes have both properties |
| Chunker.PiecesMeaning | app/rag/chunker.py:20-24 | the pieces are the parts of the split that are not blank, stripped, all and in order |
| Chunker.ChunkTextMeaning | app/rag/chunker.py:15-42 | no text has no chunk, a text within the target is its own, of a longer one every chunk has over 40 characters; the only error is an overlap equal to the target with a piece longer than it |
| Chunker.OverlapIsCarried | app/rag/chunker.py:28-38 | a chunk that is full hands its last characters, as many as the overlap, to the next |
| Fusion.SortDescending | app/rag/fusion.py:30 | the stable descending arrangement of the scores |
| Fusion.StableSortIsUnique | app/rag/fusion.py:30 | any stable descending sort gives the same arrangement |
| Fusion.RrfFuse | app/rag/fusion.py:17-30 | the nested loops and the sort compute the fused list; k <= 0 is refused |
| Fusion.FusedMeaning | app/rag/fusion.py:22-30 | each id that occurs once, scored by its sum of 1/(k+rank), highest first, ties in first-seen order |
| Fusion.MassIsConserved | app/rag/fusion.py:25-28 | the scores listed add up to all the weights handed out |
| Fusion.DominantComesFirst | app/rag/fusion.py:25-30 | ranked no worse everywhere and better somewhere: listed first |
| Fusion.BothBeatsOne | app/rag/fusion.py:25-28 | in two lists of at most k+1, an id in both outscores an id in one |
| Fusion.BothFirstIff | app/rag/fusion.py:25-30 | both-list ids always precede single-list ids if and only if the lists have at most k+1 places |
| Retriever.Retrieve | app/rag/retriever.py:61-122 | threshold, merge, fusion, rerank, cut and budget, with the error paths |
| Retriever.Budget | app/rag/retriever.py:125-134 | the loop keeps the budgeted prefix |
| Retriever.BudgetCutIsUnique | app/rag/retriever.py:125-134 | there is one prefix that fits and cannot be extended, and it is the one kept |
| Retriever.MergedSaysWhere | app/rag/retriever.py:104-111 | a hit says both, dense or sparse exactly as the legs found it |
| Retriever.BothLegsComeFirst | app/rag/retriever.py:84-122 | rerank off, candidates <= rrf_k+1: both-leg hits first, each chunk once, within top_k and the budget |
| Retriever.HybridIsBestFirst | app/rag/retriever.py:113-122 | the scores handed out never rise along the answer |
| RetrieverAnswer.RerankedAnswer | app/rag/retriever.py:116-122 | with the reranker, the answer is the front of the candidates by its scores, ties in fused order, each hit with the score of its own content, none twice, and nothing left out scores higher |
| RetrieverAnswer.FusedAnswer | app/rag/retriever.py:113-122 | without it, the front of the fused candidates, within top_k and the characters |
| RetrieverAnswer.PlainAnswer | app/rag/retriever.py:95-96 | with one leg, the front of that leg |
| RetrieverAnswer.DenseLegMeaning | app/rag/retriever.py:84-93 | the dense leg: of the first rows, those that reach the threshold, in order |
| RetrieverAnswer.WindowMeaning | app/rag/retriever.py:103-114 | a candidate is the row of a leg, the dense one if it has it, with the fused score |
| Retention.Store.DeleteBatch | app/services/retention.py:124-140 | one DELETE takes up to 500 of the oldest expired conversations, any of equal age |
| Retention.Store.Purge | app/services/retention.py:94-161 | exactly min(expired, max_batches*500) of the oldest expired conversations go, with the report; skip and dry run change nothing |
| Retention.PurgeKeepsRecords | app/db/models.py:180-224 | after a purge exactly the messages of remaining conversations remain; leads and appointments stay, with only links to deleted conversations nulled |
| Retention.PurgeStaysInTenant | app/services/retention.py:130-137 | no row of another tenant changes, and no unexpired conversation |
| Retention.PurgeTakesOldest | app/services/retention.py:103-140 | a run takes conversations of the tenant older than its retention days, oldest first, 500 a batch, and leaves such a one only when its batches are used up |
| Retention.RemainsIff | app/services/retention.py:123-160 | nothing expired remains if and only if no more had expired than the ceiling; else exactly the surplus |
| Retention.CompleteIff | app/services/retention.py:123-160 | the complete flag says whether anything expired is left if and only if the number that had expired is not the ceiling |
| Retention.FullRunSaysIncomplete | app/services/retention.py:160 | for every ceiling, a database that a run clears while it reports itself incomplete |
| Retention.CompleteMatchesPreview | app/services/retention.py:70-91 | a complete run deletes and detaches what the dry run announced |
| Retention.ReportedLinksIff | app/services/retention.py:155-161 | the reported detached leads are right, however ties are broken, if and only if every lead to an expired conversation has fewer others no newer than it than a run may delete |
| Retention.ReportIsWrong | app/services/retention.py:155-161 | for every ceiling, a database whose report counts a lead that stays linked |
| Retention.RerunIsIdle | app/services/retention.py:103-104 | after a complete run, another at the same cutoff changes nothing |
| Retention.RunsAddUp | app/services/retention.py:103-104 | two runs are one run with both ceilings |
| Retention.Tables.EraseTable | app/services/retention.py:186-208 | the bounded loop over one table, and whether it was truncated; of other tables only those it cascades to lose rows |
| Retention.ChildrenGoFirst | app/services/retention.py:170-182 | no delete cascades to a table that comes later in the order |
| Retention.Tables.EraseTenant | app/services/retention.py:164-221 | everything of the tenant is gone and nothing else, even where tables are reported truncated |
| Retention.WithoutTenantMeaning | app/services/retention.py:211-215 | exactly the rows of other tenants are left |
| Ingest.Index.IngestSite | app/rag/ingest.py:19-86 | the page loop computes the new documents, chunk rows and counts |
| Ingest.ReplacedIndexes | app/rag/ingest.py:43-76 | replacing a page indexes it by its chunks and leaves every other document as it was |
| Ingest.IngestKeepsCoherent | app/rag/ingest.py:30-76 | every document keeps the chunks of a text with the stored hash |
| Ingest.CrawledPagesAreIndexed | app/rag/ingest.py:30-76 | after an ingest each page has one document with its hash, and, for an injective hash, exactly the chunks of its text |
| Ingest.UnseenDocumentsStay | app/rag/ingest.py:30-76 | documents the crawl did not see, and other tenants' ones, are unchanged |
| Ingest.ReingestIsIdle | app/rag/ingest.py:39-41 | ingesting the same pages again changes no row and counts all unchanged |
| Ingest.CollisionIsSkipped | app/rag/ingest.py:39-41 | with a colliding hash the old chunks stay |
| Ingest.CrawledSiteIsIndexed | app/rag/ingest.py:27-76 | crawl and ingest together: every returned page is indexed, and a second run on the same site is idle |
| IngestRows.ReplacedSays | app/rag/ingest.py:38-78 | a changed or new page: title, hash, location of the document, and tenant, location and link of every chunk row |
| IngestRows.IngestKeepsLabels | app/rag/ingest.py:66-78 | every chunk row carries the tenant and link of its document, after any ingest |
| IngestRows.ReportMeaning | app/rag/ingest.py:79-86 | the report counts the unchanged pages, the others that have chunks, and these chunks |
| IngestRows.ChunksOf | app/rag/chunker.py:15-42 | the chunks stored: none for an empty text, a short text itself, else pieces of 41 to 1051 characters |

## Left out

- Retention.Store.Purge: no other session writes conversations of the tenant while it runs; new ones are never expired, but concurrent deletions are not modelled.
- ConfigCache.CacheIsInvisible: operations are serial and there is one process; a request that resolves while a patch commits, and the caches of other instances, are not modelled. Schema validation is a function of the merged layers and is left out, as is the origin allowlist (one flag).
- ReminderWorker.SendDue: the process does not die inside the method; death at any point is the crash step of the protocol.
- Reminders.Safety: the claim may take any due row, not only the earliest, so it holds for every order the query may choose; the worker methods take the earliest. One clock is shared by database and workers.
- Retention.Tables.EraseTable: which rows of a child table hang on which parent is an input; they are taken to belong to the same tenant.
- JobQueue.Safety: one clock is shared by the database and the workers, although the retry time is computed by the worker.
- JobQueue.Turn: the retention and reminder timers of the loop are other steps, and the process does not die inside the turn.
- QuietHours.ShiftOutOfQuiet: a fixed UTC offset stands for the time zone; daylight saving and the zone tables are left out. The same holds of Scheduling.CandidateStarts.
- Scheduling.CandidateStarts: closed dates are day numbers; parsing ISO dates and range strings into numbers is left out.
- Fusion.RrfFuse: sums exact reals; rounding of floats is left out.
- RateLimit.RateBound: uses exact reals and a clock that does not run backwards.
- Chunker.Chunk: the newline clean-up and the sentence regex are inputs.
- Ingest.Index.IngestSite: embedding vectors are left out; the hash is any function, injective where a result says so.
- Retriever.Retrieve: the SQL of the two legs, tenant scoping included, and the cross-encoder are inputs.
- AgentGraph.RunTools: message ids, the framework's recursion limit, prompts and the tools themselves are left out.
- LinkSearch.SearchExhausts: the one-queue search runs until its queue is empty; the program's loop may stop earlier, and `Crawl` states its seen set only for a run that ends with an empty frontier.
- Replies.RepliesAgreeIff: the stream is that of one completed run, with the agent node's own texts as its chunks; a stream cut off by an exception is left out.
- The crawler's HTTP client, robots parsing, HTML parsing and text extraction: inputs of the crawl.
- Streaming of single tokens to the client, timing fields and observability.
- HTTP routing, authentication, origin checks, budgets, consent, the widget and the console.
- Language detection, log redaction, e-mail bodies, credentials and webhook signatures.
- The tenant export: its rows are capped lists, and its redaction sees values already turned into strings.
- Analytics queries, migrations and seed scripts.
