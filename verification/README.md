# Verified model of the Ekumidayomi backend core

A Dafny 4.11 model of the parts of the backend where correctness depends on many steps
together, with proofs of what those parts promise. `dafny verify dfyconfig.toml` checks
everything.

## What is modelled

**Leased outbox delivery.** Workers claim challenge e-mails under expiring leases, bind a
content fingerprint, call the e-mail provider outside any transaction and then write the
result behind a fence. Four layers describe it:

- `OutboxModel` and `OutboxTransactions` give each transaction as a function on table values:
  claim, bind, finish, replay, resume, and the ordinary runner's batch, mark and recover.
- `Repositories` holds the mutable rows and the repository methods that assign their fields
  one by one; each method is proved equal to its transaction function. `Sender` does the same
  for the Resend adapter's `prepare` and `send`, and `Worker` for one pass of the worker.
  `Selection` gives the results of ordered, bounded queries.
- `Protocol` interleaves any number of workers with the provider, operators and the ordinary
  runner. Workers may crash between any two steps, the clock readings of claim, bind and finish
  may lag behind their commits, leases run out, `SKIP LOCKED` may pass over any rows, and
  requests may arrive late or twice.
  `Worker.PassIsAProtocolRun` connects a pass of the worker to this machine.
- `Invariant` and `Preservation` prove one inductive invariant; `Guarantees`, `Bounds`,
  `Fencing`, `Ordering` and `Timed` draw the safety theorems over whole runs from it, and
  `Progress` what must happen: due messages are claimed, crashed ones reclaimed, stopped groups
  rest, rejected messages stay dead.

Each component has a second, independent account in a module whose name ends in `Answers`:
what every operation must decide and write, in the columns of the tables, with every status,
word and limit spelled out and none of the definitions its operation is built from.

**Redis sliding-window limiter** (`RateLimit`). The pruned, expiring sorted set of the script
against an unbounded log of all admissions.

**Transactional state machines.** `Jobs` is the durable job lease machine. `Challenges` holds
the e-mail challenges with the commit and rollback boundaries of the calls that issue and
consume them, `EmailHandler` turns a claimed event into mail, and `ChallengeDelivery` follows
that mail through the delivery protocol. `Oidc` interleaves login, link, unlink, registration
and bootstrap statement by statement under advisory and row locks; `Identities` gives the same calls on their
own, with sessions and recent authentication, and `IdentityRuns` shows that they are runs of the
interleaved machine.

**Bounded traversals.** `EventPayload` freezes, stores and rebuilds event payloads;
`AuditMetadata` is the audit sanitizer. Both share a mutable budget across a recursion.

`Canonical` is the length-prefixed encoding under the fingerprint, `Names` the identifier
patterns, `Basics` shared vocabulary.

## Reading the assumptions

- Times are integer microseconds (milliseconds in `RateLimit`, whose script reads the Redis
  clock). UUIDs are natural numbers; a drawn UUID or token is a parameter that must be new.
- HMAC-SHA256 is an injective constructor: equal fingerprints or code digests mean equal keys
  and contents. The six-digit code of a challenge is an arbitrary function of secret, id and
  purpose.
- The provider is honest in `Protocol`: a receipt names an accepted submission of that
  request, a conflict is reported only for a reused key with other content, and keys are
  remembered for 24 hours.
- `Timed` adds the bounds of the deployment: 15 seconds for a unit of work, the configured
  prepare and send timeouts, a quarter of a second for local work between two bounded phases,
  and 3500 seconds for a request to reach the provider or be lost. The untimed theorems need
  none of these.
- Claim, bind and finish take effect at their commit, with clock readings from before it; in
  `Timed` at most a unit of work before it for claim and bind. A replay takes effect at its
  clock reading instead. It reads the clock while it holds the row lock, so nothing else
  changes the row until it commits; claims skip the locked row, and a pending row holds later
  versions back just as a dead or blocked one does. So this loses no run.
- `EmailHandler` assumes, where it reads the code out of a mail, that codes consist of digits,
  as the six-digit format makes them.
- `ChallengeDelivery` takes every preparation to be the challenge handler's, for the challenge
  that is the event's aggregate.
- `Ordering` assumes that versions of an aggregate are staged in increasing order, which is
  the caller's duty.
- The runs of `Challenges` assume a clock that does not run backwards between transactions.

Where the documentation and the code could be read differently, the code decides. A row that
the age check gives up keeps its token and lease, so a set token does not mean that the row is
in delivery. `dead` and `skipped` do not mean that nothing was ever sent;
`Guarantees.BoundDiesOnlyByVerdict` says what can make a bound message dead. A code that is
right but refused by the account side is rolled back with its attempt, as
`Challenges.FailureCommitsOnlyMisses` states. Events are meant to survive storage unchanged, but
a float such as 1e23 does not: JSONB prints its shortest decimal as a whole number, which reads
back as an unequal integer. `EventPayload.StagedEventsRebuild` says exactly when they do, and
`EventPayload.LargeFloatsChange` gives the float.

## Model

| member | source | states |
|---|---|---|
| Canonical.ParseOfEncode | src/ekumidayomi/email/resend.py:39 | The length-prefixed form of request bodies parses back to the same list, for all bodies shorter than 2^64 bytes |
| Canonical.EncodeOfParse | src/ekumidayomi/email/resend.py:39 | Whatever parses is the canonical form of what it parses to |
| Canonical.EncodeInjective | src/ekumidayomi/email/resend.py:39 | Different body lists never share canonical bytes |
| Canonical.FingerprintCommits | src/ekumidayomi/email/resend.py:39-42 | A fingerprint determines the whole list of bodies it was computed from |
| Sender.Prepare | src/ekumidayomi/email/resend.py:22-43 | One request per recipient, keyed by delivery and position, carrying the encoded document with that address, subject, text and HTML part; the fingerprint commits to exactly these bodies |
| Sender.SameFingerprintSameRequests | src/ekumidayomi/email/resend.py:37-43 | Two preparations of one delivery with equal fingerprints send the same bytes under the same keys |
| Sender.ReadBody | src/ekumidayomi/email/resend.py:65-73 | Reading chunk by chunk yields the whole body, or nothing iff the body passes 16384 bytes |
| Sender.ClassifyExactly | src/ekumidayomi/email/resend.py:74-127 | Which responses end how, in both directions: a receipt needs a success that names it; only unreachable or busy providers are retried, the busy one always after the delay it asked for; what the provider's configuration or quota refuses blocks; everything that leaves the fate of a request open is uncertain; each with its own code |
| Sender.BusyDelayExactly | src/ekumidayomi/email/resend.py:108-115 | The delay of a busy provider is the number its header names in decimal, an hour at most, and a minute when it names none |
| Sender.Send | src/ekumidayomi/email/resend.py:45-128 | The loop over unresolved recipients ends at the first request that stays unresolved, with the receipts collected until then |
| Sender.SendMeaning | src/ekumidayomi/email/resend.py:48-51 | A pass is accepted iff every recipient ends with a receipt; old receipts are kept and never resubmitted; new ones answer their own request; otherwise the pass submits and ends at the first unresolved request, with the answer to that one |
| OutboxTransactions.LowestIds | src/ekumidayomi/outbox/leased_repository.py:78-80 | The sweep takes the lowest ids of the eligible rows, at most one hundred |
| OutboxTransactions.First | src/ekumidayomi/outbox/leased_repository.py:98-117 | The claimed row precedes every other ready row by availability, then id |
| Selection.Select | src/ekumidayomi/outbox/repository.py:100-105 | An ordered query takes as many distinct rows as its limit allows, in order, each before every row left out, and leaves rows out only when full |
| OutboxTransactions.Batch | src/ekumidayomi/outbox/repository.py:90-110 | An ordinary batch holds distinct rows that satisfy every condition of the query, as many as the limit and the locked rows allow |
| OutboxTransactions.BatchTakesTheEarliest | src/ekumidayomi/outbox/repository.py:100-106 | A batch is ordered by availability, occurrence and id, and leaves out an eligible, unlocked row only when it is full of earlier ones |
| OutboxTransactions.ReleaseTakesTheEarliest | src/ekumidayomi/outbox/repository.py:176-186 | A recovery is ordered by claim time and id, and leaves out a stale, unlocked row only when it is full of earlier ones |
| OutboxAnswers.SweepAnswers | src/ekumidayomi/outbox/leased_repository.py:61-88 | The sweep gives up exactly the waiting or abandoned rows out of attempts or time, by id, a hundred at most, as uncertain when bound and dead otherwise; nothing else changes |
| OutboxAnswers.ClaimAnswers | src/ekumidayomi/outbox/leased_repository.py:89-154 | After the sweep, the waiting or abandoned row with an attempt left, its turn come, and first by availability and id, is handed out with exactly these columns or given up as too old; nothing is answered only when no unlocked row is due |
| OutboxAnswers.PausedAnswers | src/ekumidayomi/outbox/leased_repository.py:57-60 | A paused group claims nothing; only its heartbeat moves and the pause stays |
| OutboxAnswers.BindAnswers | src/ekumidayomi/outbox/leased_repository.py:169-196 | Without the fence nothing happens; other content than was bound blocks the row and pauses the group, heartbeat and other groups kept; then the earlier deadline decides, and every other bind leaves the controls alone |
| OutboxAnswers.FinishAnswers | src/ekumidayomi/outbox/leased_repository.py:198-219 | Which final status an owned finish gives, in both directions, from outcome, attempts, budget, deadline and fingerprint; receipts are merged; exactly a blocking outcome pauses the group |
| OutboxAnswers.DelayAnswers | src/ekumidayomi/outbox/retry.py:9-15 | A retry waits at least a second and at least what the provider asked for, and at most the larger of that and the ceiling |
| OutboxAnswers.CeilingDoubles | src/ekumidayomi/outbox/retry.py:12-14 | The ceiling starts at the base and doubles with each attempt, twenty times at most, up to the maximum |
| OutboxAnswers.ReplayAnswers | src/ekumidayomi/outbox/operations.py:57-72 | A replay succeeds exactly for a dead or blocked message in its window and lifetime whose content is unchanged, and gives it up to three attempts more |
| OutboxAnswers.NewRowAnswers | src/ekumidayomi/outbox/repository.py:46-58 | A staged message is pending, unattempted, unbound and unclaimed |
| OutboxAnswers.BatchAnswers | src/ekumidayomi/outbox/repository.py:76-110 | A due, unlocked ordinary message is in the batch unless it is full of messages before it, and only due ones are |
| OutboxAnswers.OrdinaryAnswers | src/ekumidayomi/outbox/repository.py:111-195 | What the ordinary runner's batch, marks and recovery leave in each column |
| OutboxAnswers.ReleaseAnswers | src/ekumidayomi/outbox/repository.py:176-187 | A stale, unclaimed, unlocked message is released unless the limit is filled by ones claimed before it |
| Repositories.LeasedOutboxRepository.Beat | src/ekumidayomi/outbox/leased_repository.py:50-58 | The control row is created once, locked and stamped without losing a pause |
| Repositories.LeasedOutboxRepository.Claim | src/ekumidayomi/outbox/leased_repository.py:42-154 | Field by field, the method changes the tables and returns a claim exactly as the claim transaction does |
| Repositories.LeasedOutboxRepository.ExpireRow | src/ekumidayomi/outbox/leased_repository.py:83-87 | An expired row becomes uncertain when bound and dead otherwise, and drops token and lease |
| Repositories.LeasedOutboxRepository.TakeRow | src/ekumidayomi/outbox/leased_repository.py:120-154 | A picked row is given up past its deadline, otherwise handed out on its next attempt with a snapshot of its receipts |
| Repositories.LeasedOutboxRepository.Owned | src/ekumidayomi/outbox/leased_repository.py:156-167 | A row is found iff it is processing under the claim's token with a live lease |
| Repositories.LeasedOutboxRepository.Bind | src/ekumidayomi/outbox/leased_repository.py:169-196 | The method equals the bind transaction: fence, write-once fingerprint, pause on changed content, deadline check |
| Repositories.LeasedOutboxRepository.BindRow | src/ekumidayomi/outbox/leased_repository.py:177-196 | What bind does to the one row it owns, in each of its three verdicts |
| Repositories.LeasedOutboxRepository.Finish | src/ekumidayomi/outbox/leased_repository.py:198-219 | The method equals the finish transaction: fence, merged receipts, next status, pause when blocked |
| Repositories.LeasedOutboxRepository.FinishRow | src/ekumidayomi/outbox/leased_repository.py:204-217 | What finish does to the one row it owns, with past-deadline failures turned uncertain or dead |
| Repositories.Replay | src/ekumidayomi/outbox/operations.py:51-72 | Replay succeeds iff the message is dead or blocked, within its window and lifetime budget, and still prepares the bound content; then it is pending with at most three more attempts |
| Repositories.Resume | src/ekumidayomi/outbox/operations.py:84-88 | Resume succeeds iff the group is paused and changes nothing else |
| Repositories.OutboxRepository.Add | src/ekumidayomi/outbox/repository.py:32-58 | Staging adds one pending, unattempted row under the caller's key or the default one; a malformed key and a clash on event or key are the two errors |
| Repositories.OutboxRepository.ClaimBatch | src/ekumidayomi/outbox/repository.py:60-118 | The loop over a batch changes exactly the rows of the batch transaction |
| Repositories.OutboxRepository.MarkPublished | src/ekumidayomi/outbox/repository.py:120-140 | Publishing changes a row iff it is processing without a claim token |
| Repositories.OutboxRepository.MarkFailed | src/ekumidayomi/outbox/repository.py:142-162 | Failing changes a row iff it is processing, whatever its claim token |
| Repositories.OutboxRepository.RecoverStaleClaims | src/ekumidayomi/outbox/repository.py:164-195 | Recovery releases exactly the rows of the ordered query for stale, tokenless claims and answers how many |
| Worker.LeasedOutboxWorker.Finalize | src/ekumidayomi/outbox/leased_worker.py:38-43 | Finalizing is the finish transaction with the retry delay of the claim's attempt |
| Worker.LeasedOutboxWorker.Deliver | src/ekumidayomi/outbox/leased_worker.py:91-97 | A delivery answers with the outcome of send, or with the outcome of its interruption, and names the requests it sent |
| Worker.LeasedOutboxWorker.BindAndDeliver | src/ekumidayomi/outbox/leased_worker.py:80-99 | From a prepared delivery on: bind, eligibility check, delivery and finish, with the tables and the requests sent |
| Worker.LeasedOutboxWorker.ProcessOne | src/ekumidayomi/outbox/leased_worker.py:54-99 | One pass claims, prepares, binds, delivers and finishes in that order; tables, answer and requests sent are those of the specification |
| Worker.SendsOnlyWhatIsBound | src/ekumidayomi/outbox/leased_worker.py:80-93 | A pass sends a request only after its bind was allowed and stored the fingerprint, and only for recipients without a receipt in the claim |
| Worker.PassIsAProtocolRun | src/ekumidayomi/outbox/leased_worker.py:54-99 | From any protocol state, a pass with any answers the provider may give, new acceptances included, is a sequence of protocol steps: same tables, the wire gains exactly the requests sent, the provider exactly the submissions new to it |
| Worker.SendPath | src/ekumidayomi/email/resend.py:48-128 | The sender's loop is a sequence of skip, transmit, process and respond steps that ends with the outcome of send |
| Worker.InterruptedPath | src/ekumidayomi/outbox/leased_worker.py:91-97 | A delivery cut off by its timeout or an exception, with a request perhaps under way, is a sequence of protocol steps as well |
| Worker.AnswerableExactly | src/ekumidayomi/email/resend.py:53-60 | A receipt is an answer the provider may give exactly when handling the request first makes it an honest one |
| Worker.FirstDeliveriesArePlausible | src/ekumidayomi/outbox/leased_worker.py:91-98 | Every answer short of a key conflict is covered when the provider has taken nothing of the delivery yet |
| WorkerAnswers.PassAnswers | src/ekumidayomi/outbox/leased_worker.py:54-99 | How a pass ends in each case: an undecodable event is given up, a preparation timeout is tried again without stopping the group, a refused bind sends nothing, a late delivery is skipped, a failing handler stops the group, and a delivery ends as its sender said |
| RowLemmas.ClaimRowsMeaning | src/ekumidayomi/outbox/leased_repository.py:61-145 | A claim hands out at most one row and sets others aside only when expired or too old |
| RowLemmas.SetAsideEvolves | src/ekumidayomi/outbox/leased_repository.py:83-87 | Setting a row aside keeps every row fact, takes it out of delivery and issues no token |
| RowLemmas.HandedOutEvolves | src/ekumidayomi/outbox/leased_repository.py:120-145 | Handing a row out keeps the row facts and gives it the fresh token with a deadline at most the maximal age away |
| RowLemmas.BindEvolves | src/ekumidayomi/outbox/leased_repository.py:177-196 | A bind keeps the row facts, and leaves the row in delivery iff it allowed, then with the fingerprint bound |
| RowLemmas.FinishEvolves | src/ekumidayomi/outbox/leased_repository.py:203-219 | A finish keeps the row facts and always gives the token up |
| RowLemmas.ReplayEvolves | src/ekumidayomi/outbox/operations.py:57-72 | A replay keeps the row facts, the deadline and the receipts |
| RowLemmas.OrdinaryEvolves | src/ekumidayomi/outbox/repository.py:111-162 | The ordinary runner's transitions keep the row facts |
| RowLemmas.MarksOnAClaimedRow | src/ekumidayomi/outbox/repository.py:120-162 | On a row a leased worker holds, mark_published changes nothing, while mark_failed always takes it from the worker and keeps the row facts iff an attempt is left and the new time lies before the deadline |
| Preservation.InvStep | src/ekumidayomi/outbox/leased_worker.py:54-99 | Every step of every participant preserves the protocol invariant |
| Preservation.RunInv | src/ekumidayomi/outbox/leased_worker.py:54-99 | The invariant holds in every reachable state of every interleaving |
| Guarantees.RowsOnlyEvolve | src/ekumidayomi/outbox/leased_repository.py:186-219 | Over any run a row is never lost, its fingerprint and receipts are write-once, its deadline never moves later, and published, skipped and uncertain rows are frozen |
| Guarantees.OneKeyOneBody | src/ekumidayomi/outbox/leased_worker.py:80-98 | All requests ever sent under one idempotency key carry the same bytes for the same message |
| Guarantees.NoKeyConflict | src/ekumidayomi/email/resend.py:101-104 | An honest provider never reports that a key was reused with other content |
| Guarantees.RepeatedSubmissionsAreADayApart | src/ekumidayomi/email/resend.py:53-60 | Without any time bound, two acceptances under one key are equal or at least the provider's memory apart |
| Guarantees.PublishedMeansAccepted | src/ekumidayomi/outbox/leased_repository.py:204-214 | A published message was accepted for every committed recipient with the committed bytes, and stores the provider's receipt |
| Guarantees.SentMeansBound | src/ekumidayomi/outbox/leased_worker.py:80-93 | Anything on the wire belongs to a bound message, and so does every uncertain row |
| Guarantees.BoundDiesOnlyByVerdict | src/ekumidayomi/outbox/leased_repository.py:83-88 | Once bound, a message becomes dead only by a finish with a permanent failure or an exhausted retry, never by sweep, age or deadline |
| Bounds.RunCountsClaims | src/ekumidayomi/outbox/leased_repository.py:138-140 | A leased row's attempts equal the number of tokens ever issued for it |
| Bounds.ClaimedAtMostAHundredTimes | src/ekumidayomi/outbox/operations.py:61-72 | Attempts never pass the retry budget nor 100, so a message is claimed at most 100 times in its life over all replays; waiting rows have attempts left and failed ones are available before their deadline |
| Bounds.MeasureStep | src/ekumidayomi/outbox/leased_repository.py:128-145 | Every step leaves a row as it is or lowers its measure |
| Bounds.RowsSettle | src/ekumidayomi/outbox/leased_repository.py:133-140 | In any run, with unlimited replay requests, a row changes at most 1002 times |
| Fencing.LostForGood | src/ekumidayomi/outbox/leased_repository.py:139-140 | A token that lost its row never holds it again |
| Fencing.HeldThroughout | src/ekumidayomi/outbox/leased_repository.py:156-167 | A token that holds its row at two moments held it all the time between, on one attempt and with the same receipts |
| Fencing.StaleClaimsAreFenced | src/ekumidayomi/outbox/leased_repository.py:173-175 | A bind or finish by a superseded or expired claim changes nothing in the database |
| Fencing.AppliedStepsClose | src/ekumidayomi/outbox/leased_repository.py:177-219 | A finish that passes its fence closes the claim, and so does a bind that passes it but blocks or expires the row |
| Fencing.ClosedOnce | src/ekumidayomi/outbox/leased_repository.py:139-219 | Of all steps of a run, finishes, binds, sweeps and reclaims, at most one takes a row from a claim |
| Fencing.NoClaimBetween | src/ekumidayomi/outbox/leased_repository.py:198-219 | No other claim of the message lies between a claim and the step that closes it, and the receipts are still those of the claim |
| Ordering.RunOrdered | src/ekumidayomi/outbox/leased_repository.py:89-97 | In every reachable state, whatever was ever claimed has its earlier versions out of the way |
| Ordering.DeliveredInOrder | src/ekumidayomi/outbox/repository.py:81-98 | A claimed, processing or published message has every lower version of its aggregate published, or skipped for a leased one, across both runners |
| Ordering.BatchHoldsOneVersion | src/ekumidayomi/outbox/repository.py:90-110 | One ordinary batch never holds two versions of an aggregate |
| Progress.FirstIsTaken | src/ekumidayomi/outbox/leased_repository.py:98-154 | Unless its group is paused, the due message that stands first goes to the next worker that claims, one attempt on, under a fresh token, with its receipts |
| Progress.RunLeasesEnd | src/ekumidayomi/outbox/leased_repository.py:135 | In every reachable state no lease lasts more than 300 seconds from now |
| Progress.CrashedMessageIsReclaimed | src/ekumidayomi/outbox/leased_repository.py:98-117 | 300 seconds after its worker crashed, a message nobody took since goes to the next claim of an unpaused group, with its attempts and receipts, if it has an attempt and time left and nothing else is due |
| Progress.DueOrdinaryIsStarted | src/ekumidayomi/outbox/repository.py:76-118 | A due ordinary message is started by the next batch, unless the batch is full of messages before it |
| Progress.StoppedGroupRests | src/ekumidayomi/outbox/leased_repository.py:177-185 | From a bind that met changed content, or a blocking finish, until an operator resumes the group, every claim issues no token and changes no message |
| Progress.ParkedStays | src/ekumidayomi/outbox/operations.py:57-60 | A dead or blocked message stays exactly as it is until it is replayed, whatever workers and runners do |
| Progress.RejectedIsNotRetried | src/ekumidayomi/outbox/retry.py:25-26 | After a finish with a permanent rejection no claim hands the message out before a replay of it |
| Progress.ResumeAnswers | src/ekumidayomi/outbox/operations.py:84-88 | An operator can resume exactly a paused group, and changes nothing but the pause |
| Progress.CrashAnswers | src/ekumidayomi/outbox/leased_worker.py:54-99 | A worker may crash at any moment, and leaves tables, wire and provider as they are |
| Progress.OrdinaryMarkAnswers | src/ekumidayomi/outbox/repository.py:120-195 | A publication, failure or recovery of the ordinary runner takes effect on the message it names |
| Timed.DeliveryEndsBeforeLease | src/ekumidayomi/outbox/settings.py:24-25 | A worker inside deliver still holds its row and its call ends strictly before the lease |
| Timed.OneWorkerPerMessage | src/ekumidayomi/outbox/leased_worker.py:54-99 | From claim to result at most one worker is busy with a message |
| Timed.AcceptedAtMostOnce | src/ekumidayomi/outbox/settings.py:18 | A provider that forgets keys after a day accepts each delivery and recipient at most once |
| RateLimit.DecidesLikeTheLog | src/ekumidayomi/core/rate_limits.py:11-25 | The pruned, expiring set admits iff fewer than the limit of all admissions lie in the window, and stays faithful to the log |
| RateLimit.RetryAfterIsExact | src/ekumidayomi/core/rate_limits.py:18-21 | A rejection answers the least whole number of seconds after which the caller is admitted, between 1 and the window; every earlier retry is rejected |
| RateLimit.RunIsCapped | src/ekumidayomi/core/rate_limits.py:16-24 | In any run every interval of window length holds at most the limit of admissions |
| RateLimit.LastCall | src/ekumidayomi/core/rate_limits.py:16-24 | Any call of any run is decided by the full log, and a rejection gives the exact wait |
| RateLimit.SlidingWindow.RetryAfter | src/ekumidayomi/core/rate_limits.py:45-57 | The in-place script validates its arguments and stores and answers exactly what the evaluation function says |
| Jobs.TableOkStep | src/ekumidayomi/jobs/service.py:77-255 | Every operation keeps the table invariant |
| Jobs.RunTableOk | src/ekumidayomi/jobs/service.py:77-255 | In every reachable table: running iff all lease fields are set, finished iff terminal, queued jobs have attempts left, failed ones have none, tokens and keys are unique |
| Jobs.JobsPersist | src/ekumidayomi/jobs/service.py:102-111 | Jobs are never lost, attempts never fall or pass the maximum, terminal jobs never change |
| Jobs.LostForGood | src/ekumidayomi/jobs/service.py:109 | A token that lost its job never holds it again |
| Jobs.RecoveredWorkerIsPowerless | src/ekumidayomi/jobs/service.py:226-255 | After recovery, completion or return, the old token's complete, retry and heartbeat change nothing, at any clock reading |
| Jobs.JobService.EnqueueJob | src/ekumidayomi/jobs/service.py:48-75 | A job is staged iff its type, key and attempt limit are valid and its key is new |
| Jobs.ClaimTakesTheEarliest | src/ekumidayomi/jobs/service.py:91-102 | A claim is ordered by availability, creation and id, and leaves out a claimable, unlocked job only when it is full of earlier ones |
| Jobs.RecoveryTakesTheEarliest | src/ekumidayomi/jobs/service.py:236-246 | A recovery is ordered by lease expiry and id, and leaves out an expired, unlocked job only when it is full of earlier ones |
| Jobs.JobService.ClaimJobs | src/ekumidayomi/jobs/service.py:77-113 | The claim takes exactly the jobs of the ordered query and starts each under its own fresh token |
| Jobs.JobService.HeartbeatJob | src/ekumidayomi/jobs/service.py:115-139 | A lease is prolonged iff the caller's token is live |
| Jobs.JobService.CompleteJob | src/ekumidayomi/jobs/service.py:141-170 | A job completes iff the caller's token is live |
| Jobs.JobService.RetryJob | src/ekumidayomi/jobs/service.py:172-207 | A live job is given back with its delay, or failed once its attempts are used up |
| Jobs.JobService.CancelJob | src/ekumidayomi/jobs/service.py:209-224 | A job is cancelled iff it is queued |
| Jobs.JobService.RecoverJob | src/ekumidayomi/jobs/service.py:248-253 | An expired job is failed when its attempts are used up, otherwise retried at once, and loses its lease |
| Jobs.JobService.RecoverExpired | src/ekumidayomi/jobs/service.py:226-255 | The recovery releases exactly the jobs of the ordered query and answers how many |
| JobAnswers.ClaimAnswers | src/ekumidayomi/jobs/service.py:91-102 | A pending or retrying job that is available, has an attempt left and is unlocked is claimed unless a full claim of jobs before it is, and only such jobs are |
| JobAnswers.RecoveryAnswers | src/ekumidayomi/jobs/service.py:236-246 | A running job whose lease ran out is recovered unless a full recovery of jobs expired before it is, and only such jobs are |
| JobAnswers.StartAnswers | src/ekumidayomi/jobs/service.py:103-112 | What a claim writes in each column of a job, and that no other job changes |
| JobAnswers.LeaseholderAnswers | src/ekumidayomi/jobs/service.py:115-170 | A heartbeat and a completion act exactly for the holder of a live lease, and write just their columns |
| JobAnswers.RetryAnswers | src/ekumidayomi/jobs/service.py:172-207 | A returned job waits two, four, eight seconds and so on, five minutes at most, plus the jitter, or fails once its attempts are used up |
| JobAnswers.RecoverAnswers | src/ekumidayomi/jobs/service.py:247-254 | A recovered job is available at once, or failed once its attempts are used up, without its lease |
| JobAnswers.CancelAnswers | src/ekumidayomi/jobs/service.py:209-224 | Exactly pending and retrying jobs can be withdrawn |
| JobAnswers.EnqueueAnswers | src/ekumidayomi/jobs/service.py:62-75 | A new job is pending with nothing done, beside all the others |
| JobAnswers.ReturnedJobRunsAgain | src/ekumidayomi/jobs/service.py:189-207 | In any run a job given back by retry or recovery with an attempt left is started again by a claim at or after the time it was put off to, unless that claim is full of jobs before it |
| Challenges.RowMoves | src/ekumidayomi/auth/challenges.py:105-154 | What one call may do to one challenge: replace it, count one miss, consume it, or leave it alone |
| Challenges.DbOkStep | src/ekumidayomi/auth/challenges.py:58-79 | Every call keeps one challenge per address and purpose, with at most the allowed attempts |
| Challenges.FailureCommitsOnlyMisses | src/ekumidayomi/auth/registration.py:57-69 | A good code that the account side refuses is rolled back whole: it stays unconsumed, uncounted and good; any other failing call commits at most one counted miss |
| Challenges.PasswordsTraceToRedemptions | src/ekumidayomi/auth/service.py:132-163 | Over any run without account changes from elsewhere, a password is the old one or was set by redeeming a challenge of that user's address; a reset also ended every session of the user |
| Challenges.RedeemedOnce | src/ekumidayomi/auth/challenges.py:124-154 | After a challenge is redeemed every later call that presents it is refused and changes nothing |
| Challenges.ConsumedOnce | src/ekumidayomi/auth/challenges.py:124-154 | Of all calls of a run at most one commits the consumption of a challenge, and that call returned normally |
| Challenges.SpentStays | src/ekumidayomi/auth/challenges.py:64-68 | A replaced challenge never returns and a consumed one never changes |
| Challenges.WrongCodesAreBounded | src/ekumidayomi/auth/challenges.py:57-79 | At most attempts * (T / resend + 2) wrong codes are compared for an address and purpose in any interval of length T |
| Challenges.GuessesAreBounded | src/ekumidayomi/auth/settings.py:18-19 | Under any settings the service accepts, at most 10 * (T / 30 seconds + 2) wrong codes are compared in any interval of length T |
| ChallengeAnswers.IssueAnswers | src/ekumidayomi/auth/challenges.py:47-102 | Beginning a call stages exactly one delivery, for the new challenge it stores with exactly these columns, or none: when the address may not have a code, when its last one is too recent, or when the active key is missing, which alone raises |
| ChallengeAnswers.ConsumeAnswers | src/ekumidayomi/auth/challenges.py:105-154 | Completing a call: what each of a bad password, an unusable challenge, a missing key, a wrong code and a right code raises and leaves in every table |
| ChallengeAnswers.StagedExactlyOnce | src/ekumidayomi/auth/challenges.py:80-90 | Over any run each step that issues a challenge stages its delivery and no other step stages any |
| ChallengeAnswers.EveryChallengeIsMailed | src/ekumidayomi/auth/challenges.py:78-90 | Every challenge stored in any reachable database had its delivery staged |
| Challenges.UnitOfWork.IssueChallenge | src/ekumidayomi/auth/challenges.py:47-102 | Issuing needs the active key, answers a decoy within the resend interval, otherwise replaces the slot's challenge and stages its delivery |
| Challenges.UnitOfWork.ConsumeChallenge | src/ekumidayomi/auth/challenges.py:105-154 | The staged effect and the answer in each of the four verdicts |
| Challenges.UnitOfWork.StartRegistration | src/ekumidayomi/auth/registration.py:19-43 | What beginning a registration commits and answers |
| Challenges.UnitOfWork.FinishRegistration | src/ekumidayomi/auth/registration.py:46-81 | What completing a registration commits, and its error, on every path |
| Challenges.UnitOfWork.StartReset | src/ekumidayomi/auth/service.py:104-118 | What beginning a reset commits and answers, its eligibility read before the lock and perhaps out of date |
| Challenges.UnitOfWork.FinishReset | src/ekumidayomi/auth/service.py:121-163 | What completing a reset commits, and its error, on every path |
| EmailHandler.PrepareDelivery | src/ekumidayomi/auth/email_handler.py:25-74 | A delivery is prepared iff the event names an unconsumed, unexpired challenge of a known purpose and a configured key; it is one request, the letter to the challenge's address with its code, in the subject and words of its purpose; otherwise the outcome is permanent, skipped or blocked, without receipts |
| EmailHandler.LetterTellsTheCode | src/ekumidayomi/auth/email_handler.py:37-44 | The only digits in the letter are the code |
| EmailHandler.MailedCodeIsTheOneAccepted | src/ekumidayomi/auth/challenges.py:34-44 | In any run the digits of the letter prepared for a challenge are judged right and every other code wrong, while its secret stays configured, and the letter goes to the address the challenge was issued for |
| EmailHandler.RetriesPrepareTheSameMail | src/ekumidayomi/auth/email_handler.py:72-74 | Two attempts at any moments of a run prepare the same requests and fingerprint, while the version's secret, sender and fingerprint key stay configured |
| ChallengeDelivery.RetriesNeverChangeContent | src/ekumidayomi/outbox/leased_repository.py:173-196 | While the sender, the fingerprint key and the secret of each version stay configured, no bind of a run of workers, retries and replays meets changed content: it is refused only by the fence or the deadline, and pauses no group |
| ChallengeDelivery.FingerprintWasPrepared | src/ekumidayomi/outbox/leased_worker.py:64-85 | A bound fingerprint is that of a delivery some earlier step of the run prepared for that message |
| Oidc.InvStep | src/ekumidayomi/auth/oidc/service.py:88-189 | Every statement of every transaction keeps what the others have read under their locks |
| Oidc.RunInv | src/ekumidayomi/auth/oidc/service.py:88-293 | The invariant holds in every interleaving of logins, links, unlinks, registrations and bootstraps |
| Oidc.UsersKeepALoginMethod | src/ekumidayomi/auth/oidc/service.py:246-293 | A committed user always keeps a password or an external identity, two concurrent unlinks included |
| Oidc.IdentitiesAreUnique | src/ekumidayomi/auth/oidc/service.py:90-96 | No subject names two users and no user has two subjects at one provider |
| Oidc.ConstraintsNeverFire | src/ekumidayomi/auth/oidc/service.py:137-177 | The locks alone keep inserts clear of both unique constraints |
| Oidc.FinalMethodIsRefusedExactly | src/ekumidayomi/auth/oidc/service.py:272-283 | Unlinking is refused iff it would leave the user without a login method, although count and password were read by earlier statements |
| Oidc.AuthenticatedAsOwner | src/ekumidayomi/auth/oidc/service.py:145-189 | A login or reauthentication commits only for the user who owns the subject at that moment |
| Oidc.OnlyAccountsInForceAct | src/ekumidayomi/auth/oidc/service.py:98-189 | A login, reauthentication, link or unlink commits only for an account that is active and verified at that very moment, although administrators may change accounts between its check and its commit |
| Oidc.AddressesAreUnique | src/ekumidayomi/auth/oidc/service.py:160-170 | No two users ever share an address |
| Identities.IdentityService.FinishHandshake | src/ekumidayomi/auth/oidc/service.py:77-215 | A handshake raises exactly the error its first failing check names and then changes nothing; otherwise it made the one change of its intent, to accounts and sessions |
| Identities.IdentityService.FinishLogin | src/ekumidayomi/auth/oidc/service.py:145-212 | A login succeeds for an active verified owner, or opens an account iff the address is verified and free, and issues a session that is not recent |
| Identities.IdentityService.FinishReauthentication | src/ekumidayomi/auth/oidc/service.py:98-132 | Reauthentication succeeds iff the actor is authorized and owns the subject with an auth_time claim, and renews that session alone |
| Identities.IdentityService.FinishLink | src/ekumidayomi/auth/oidc/service.py:133-177 | Linking needs recent authentication, a free subject and no other subject at the provider; each refusal iff its reason holds |
| Identities.IdentityService.UnlinkProvider | src/ekumidayomi/auth/oidc/service.py:236-293 | Which row is removed, and each refusal iff its reason holds: none linked, not authorized, not recent, last login method |
| Identities.PassiveLoginIsNeverRecent | src/ekumidayomi/auth/oidc/service.py:198-201 | A provider login authenticates until its session expires but never counts as recent, so it can neither link nor unlink |
| Identities.ReauthenticationIsRecent | src/ekumidayomi/auth/oidc/service.py:117-132 | Reauthenticating makes that session recent for exactly the configured time, and no other session |
| IdentityRuns.HandshakeIsARun | src/ekumidayomi/auth/oidc/service.py:77-215 | Whatever a handshake on its own does when it returns, the interleaved machine can do statement by statement |
| IdentityRuns.UnlinkIsARun | src/ekumidayomi/auth/oidc/service.py:236-293 | The same for an unlink that leaves a login method |
| IdentityAnswers.RefusalAnswers | src/ekumidayomi/auth/permissions.py:31-60 | A call is authorized exactly for an active, verified account with its own unrevoked, unexpired session, authenticated as recently as was asked |
| IdentityAnswers.RaisesAnswers | src/ekumidayomi/auth/oidc/service.py:77-189 | Exactly when a handshake raises, in the columns of accounts, identities and sessions |
| IdentityAnswers.FinishedAnswers | src/ekumidayomi/auth/oidc/service.py:133-212 | What a handshake that returns has written: one account with the subject, one identity, or nothing |
| EventPayload.FreezeValueExactly | src/ekumidayomi/events.py:108-129 | Freezing accepts exactly the legal trees within depth and budget, spends one unit a value, and its result depends on neither |
| EventPayload.FreezeEntriesExactly | src/ekumidayomi/events.py:95-105 | The same for the fields of a mapping |
| EventPayload.RenderingIsLegal | src/ekumidayomi/events.py:142-147 | Any rendering of a frozen tree, in any key order, freezes back to it at the same cost |
| EventPayload.MakeEvent | src/ekumidayomi/events.py:52-74 | An event can be made iff its names, version and payload are legal with at most 500 values |
| PayloadAnswers.MakeEventAnswers | src/ekumidayomi/events.py:52-74 | An event can be made exactly from snake-case names, a positive version and a mapping at most eight levels deep of at most 500 values, with strings of at most 10000 characters under proper names without a sensitive word |
| PayloadAnswers.NameAnswers | src/ekumidayomi/events.py:90-139 | The patterns for type and key names, read as words between underscores |
| EventPayload.StagedEventsRebuild | src/ekumidayomi/outbox/model.py:88-99 | Every event that could be made is rebuilt from its stored row and never raises; it is equal exactly when each float that storage spells as a whole number is that number |
| EventPayload.EqualExactly | src/ekumidayomi/events.py:142-147 | A stored tree compares equal to the original exactly when its whole floats are exact |
| EventPayload.LargeFloatsChange | src/ekumidayomi/outbox/model.py:88-99 | The float nearest to ten to the 23rd is a payload whose rebuilt event is not equal |
| EventPayload.ConstructEvent | src/ekumidayomi/events.py:52-74 | The constructor's in-place budget gives the event of the specification, error included |
| EventPayload.FreezeMapping | src/ekumidayomi/events.py:95-105 | The loop freezes each field in order and leaves the budget the specification leaves |
| EventPayload.FreezeOne | src/ekumidayomi/events.py:108-129 | One value: depth, budget and kind checks in the order of the code |
| EventPayload.Thaw | src/ekumidayomi/events.py:142-147 | Thawing yields a rendering of the frozen value |
| EventPayload.ThawFields | src/ekumidayomi/events.py:76-81 | The payload dictionary renders every field once |
| AuditMetadata.NonInterference | src/ekumidayomi/audit/service.py:256-283 | Inputs that differ only under sensitive or unlisted keys, at any depth, give the same result or the same error |
| AuditMetadata.Idempotence | src/ekumidayomi/audit/service.py:206-230 | Sanitizing a sanitized value with the same allowlist returns it unchanged, despite the shared budget |
| AuditMetadata.ResultsAreTheCleanMappings | src/ekumidayomi/audit/service.py:206-230 | The mappings left unchanged are exactly those of listed values and redactions within every bound |
| AuditMetadata.ResultIsClean | src/ekumidayomi/audit/service.py:286-328 | Whatever comes out holds only listed or redacted fields within the bounds, at no more cost than was spent |
| AuditMetadata.CleanIsFixed | src/ekumidayomi/audit/service.py:286-328 | A clean value passes unchanged under any budget it fits |
| AuditMetadata.CleanMapping | src/ekumidayomi/audit/service.py:256-283 | The loop over fields with its in-place budget equals the specification, error included |
| AuditMetadata.CleanValue | src/ekumidayomi/audit/service.py:286-328 | One value, with the checks in the order of the code |
| AuditMetadata.CleanList | src/ekumidayomi/audit/service.py:313-327 | The loop over items equals the specification |
| AuditMetadata.SanitizeAuditMetadata | src/ekumidayomi/audit/service.py:206-230 | The whole sanitizer, with the allowlist check and the byte limit |
| AuditAnswers.SanitizeAnswers | src/ekumidayomi/audit/service.py:206-230 | Metadata is accepted exactly when it is a mapping with a safe allowlist that fits every bound, and comes out as what is kept of it, whatever its keys and nesting |
| AuditAnswers.ValueAnswers | src/ekumidayomi/audit/service.py:286-328 | For any depth and budget a value is accepted exactly when it fits and the budget covers it, charged its cost, and comes out cut, converted and redacted as written out |
| AuditAnswers.NothingSecretIsLeft | src/ekumidayomi/audit/service.py:271-283 | In whatever is returned, at any depth, every field is listed and every field with a sensitive word in its name reads "[REDACTED]" |
| AuditAnswers.DistinctFieldsKeepOrder | src/ekumidayomi/audit/service.py:267-283 | A mapping with distinct keys is filtered in order |
| Names.SplitJoins | src/ekumidayomi/events.py:137 | The parts a key is checked by are exactly what lies between its underscores: they join to the key and hold none |
| Names.DottedIsRegular | src/ekumidayomi/jobs/service.py:282-284 | The job type pattern accepts what its regular expression matches, character by character |

## Left out

- SQLAlchemy, PostgreSQL, Redis and HTTP clients: tables are maps, outbox transactions are atomic because each takes its control or row lock first, and OIDC transactions are interleaved by statement under their locks.
- JSON, JSONB and UTF-8: encoders are function parameters; storage returns mapping keys in any order and floats as a spelling parameter says; strings and numbers that PostgreSQL or the JSON encoder refuses are not modelled.
- HMAC, SHA-256, Argon2 and UUID generation: symbolic or fresh values; a 64-bit advisory lock id stands for its text, so a hash collision that would only lock more is not modelled.
- The polling loop, signals, logging and audit events of the workers and services, `health`, the command line and migrations.
- Worker.LeasedOutboxWorker.ProcessOne: proved for a pass whose tables nobody else touches meanwhile; interleaved passes and crashes are the business of the protocol machine.
- Receipts of a send that times out or whose finish is fenced off are lost in the code; the theorems claim nothing about them.
- Calling bind twice under one claim could raise the deadline; a worker binds once per claim, and the protocol relies on it.
- Keeping the two outbox runners apart relies on callers passing only ids they got from a claimed batch, which the protocol assumes; `RowLemmas.MarksOnAClaimedRow` shows what happens otherwise.
- Sender.ClassifyExactly: does not model Unicode decimal digits in Retry-After, only ASCII ones.
- Database errors, and a commit that fails after its transaction decided, appear only as a crash of the whole transaction.
- Challenges.WrongCodesAreBounded: counts wrong codes; comparisons of a right code that the account side refuses are not counted by the code either.
- Address normalisation, the password policy and the compromised-password lookup: inputs of the calls; an address that cannot be normalised is not modelled.
- The OIDC exchange with the provider, its state storage, session secrets, roles outside customer and administrator, and the last_login_at and email_snapshot columns.
- Oidc.RunInv: keeps sessions out of the interleaving; a call that its session refuses is an abort there, and `Identities` has the rules.
- Oidc.UsersKeepALoginMethod: starts from empty tables, and nothing in the source deletes a user or a password.
- Administration of users beyond the active and verified flags, session caching, the response cache, pagination and money helpers: true but easy members.
- Python types that the annotations rule out, such as a boolean where an integer is expected, except where a payload or metadata tree may hold them.
- Time zones: instants are already UTC, apart from the naive instant the audit sanitizer rejects.
