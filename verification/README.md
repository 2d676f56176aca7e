# Crash-game backend: a verified model

The backend takes a stake from a player's wallet, keeps the running game as a session in Redis, pays the player through
the wallet of an agent, refunds bets whose session has disappeared and repeats wallet calls that failed. Several servers
run the same code against one database and one Redis. This project models the parts whose promises are about whole runs
of that system, and proves them.

| module | what it models |
|---|---|
| `Common` | optional values, the job status column, decimal rounding, sequences without repetition |
| `GameSession` | one game session: steps, cash-out, what is settled, against the rules of the game written as a recursion |
| `Bets` | bet rows and the bet service |
| `RefundBatches` | grouping and batching of a refund pass, its counters |
| `Protocol` | bet, step, cash-out, refund batch, retry run, session expiry and Redis flush as one state machine with a clock |
| `ProtocolSafety` | the invariant of every run, and exactly when a run both settles and cancels a transaction |
| `ProtocolRows` | what the status of a bet row says about the requests sent for the bet |
| `ProtocolFinality` | exactly when won, lost and refunded rows stay as they are, and runs in which they always do |
| `ProtocolLimits` | one refund pass at a time: when its batches are fresh, and which ids its guard can trust |
| `ProtocolMoney` | sessions, games, jobs, rows and the agent's books agree in every reachable state |
| `ProtocolPlay` | what a bet, a game, a settlement, a refund and a retry do to the whole state, and what they leave alone |
| `ProtocolJobs` | every failed call leaves a retry job, and each job follows its schedule through any run |
| `ProtocolPass` | which bets a refund pass refunds, and that its counter tells how many |
| `ProtocolConservation` | what each bet nets, and exactly when one is booked both ways |
| `ProtocolFailures` | concrete runs in which the promises fail |
| `Backend` | the same flows as classes that update their stores step by step, proved against `Protocol` |
| `RetrySchedule` | when a failed call is tried again and when a job gives up |
| `RedisStore` | the key store with expiry |
| `RetryJobs`, `BetLock`, `LeaderLease` | interleaved servers under the three kinds of lock |
| `HazardPatterns` | drawing, reading and comparing hazard patterns |
| `HazardRotation` | the rotation of hazards as a cache distributed over servers |
| `HazardDraws` | which steps install a hazard state, and that the patterns announced are those drawn |
| `HazardScheduler` | the same operations as the class one server runs |
| `Fairness` | seed commitment and reveal |
| `FairnessSecrecy` | exactly which settlements reveal a seed that is still in play |

## Assumptions

The theorems name their assumptions as predicates. In words:

- `ProtocolSafety.Plausible`: transaction ids are new; user and agent ids hold no colon (registration admits letters and
  digits only, see `ProtocolLimits.RegisteredIdsAreSafe`); the catalogue returns the game code it was asked for; the
  query for old bets lists exactly what it promises. Nothing is assumed about what happens to a bet between that query
  and its batch.
- `ProtocolSafety.SendsOnlyFresh`: whenever the refund of a batch is sent, its bets are still open. The code does not see
  to that, and `ProtocolFailures.CashOutBehindThePass` is a run in which it fails, with both requests sent and a final row
  overwritten. Without the assumption the promises hold exactly as far as `ProtocolSafety.RunIsSafeIff`,
  `ProtocolFinality.RunIsFinalIff` and `ProtocolConservation.RunBooksOnceIff` say.
- `ProtocolLimits.OnePass`: bets are listed only when no refund pass is under way. The code takes a lock in Redis for
  that, which lasts five minutes and which a flush removes. Only `ProtocolLimits` uses the assumption.
- `ProtocolFinality.Tidy`: a retry run does not die after writing the bet row and before writing its own status.
- `ProtocolJobs.FailureIsLogged`: the audit record of a failed call is written; the code creates the retry job from it.
- The agent answers as it likes, may apply a request whose reply is lost, but applies each action of a transaction once.
- Each flow is one step in `Protocol`. Elsewhere flows are cut and interleave freely: in `RetryJobs` into taking the
  lock, marking the job and writing its end, with job creation (look-up and insert) as one step; in `BetLock` into lock,
  check, write and release; in `LeaderLease` a renewal into its read and its write; in `HazardRotation` a read into
  loading the state and evaluating it.
- `RetryJobs.Timely`, `BetLock.Timely`, `LeaderLease.Renewed`: a run or flow ends inside the time to live of its lock, the
  leader renews in time and does not give up its lease, and Redis is not flushed meanwhile. The last is not given: every
  socket disconnect flushes all of Redis, locks and leases included. `RetryJobs.SoundIffTimely`, `BetLock.SafeIffTimely`
  and `LeaderLease.StableIffRenewed` show that each of these conditions is exactly what the promise rests on.
- `HazardRotation.Allowed`: where a state is needed, the newest one is in Redis or in the server's own copy. Flushes are
  steps of the model; `HazardRotation.ReadIsCoherentIff`, `HazardRotation.RotationHandsOverIff` and
  `HazardRotation.FlushHealsIff` say what happens without the entry.
- `HazardRotation.PromptRun`: each state is replaced, or the run is over, within half an interval after its change time.
- `FairnessSecrecy.NewSeeds`: a generated server seed has not been generated before.
- All servers read the same clock, which starts at 0 in `Protocol.Init` and moves by `Tick`. A Redis key is present until its expiry time or a flush, and absent from then on.
- The random source and the hash function are parameters.

## Model

| member | source | states |
|---|---|---|
| `GameSession.ServeKeepsSessionValid` | src/routes/gamePlay/game-play.service.ts:286-386 | a request keeps the session consistent: step in range; win amount equal to stake times the coefficient earned, while active and after a win or a cash-out; a loss always with amount zero and its collision columns; a settlement is asked for only when an active session becomes inactive; a finished session does not react |
| `GameSession.ReachableSessionValid` | src/routes/gamePlay/game-play.service.ts:654-663 | after any requests the session is consistent, so the end reason reported for it is never a cash-out |
| `GameSession.FinishedSessionIgnoresRequests` | src/routes/gamePlay/game-play.service.ts:288-293 | no list of requests changes a finished session or makes it settle again |
| `GameSession.SessionRefinesRules` | src/routes/gamePlay/game-play.service.ts:303-407 | for all requests and hazards seen, the settlements asked for are exactly the one payment the rules of the game give: nothing at the first column hit, stake times the last cleared coefficient (or 1) on cash-out, stake times the final coefficient at the last column |
| `GameSession.ReportedEndIsTrue` | src/routes/gamePlay/game-play.service.ts:654-663 | for all requests, the end reason a player is told is right: none while the rules have not paid, a hazard if and only if a column was hit, with the hazards of that very step, a win otherwise; while the game runs the stored step is the last one accepted |
| `GameSession.AcceptedStepsBounded` | src/routes/gamePlay/game-play.service.ts:310-318 | a session accepts no more steps than it has columns left |
| `GameSession.LastColumnIsSafe` | src/routes/gamePlay/game-play.service.ts:327-339 | whatever hazards are reported for the last column, a player who clears the others is paid the full coefficient |
| `Common.RoundToExact` | src/routes/gamePlay/game-play.service.ts:147 | rounding to a fixed number of decimals changes nothing exactly for amounts that have no more decimals than that |
| `Common.RoundToIsNearest` | src/entities/bet.entity.ts:54-58 | a rounded amount is a whole number of units, at most half a unit from the amount, the larger of two equally near |
| `Bets.SettlementIsIdempotent` | src/modules/bet/bet.service.ts:129-135 | once settled, a row is not changed by any number of further settlements with any amounts |
| `Bets.BetService.CreatePlacement` | src/modules/bet/bet.service.ts:81-116 | a new row appears only for an active game and an unused transaction id; otherwise nothing changes |
| `Bets.BetService.RecordSettlement` | src/modules/bet/bet.service.ts:118-158 | fails only for an unknown bet; the whole table afterwards is that of the specified settlement |
| `Bets.BetService.UpdateStatus` | src/modules/bet/bet.service.ts:160-173 | exactly the one row changes, in its status only, whatever the status was |
| `Bets.BetService.MarkSettlementFailed` | src/modules/bet/bet.service.ts:186-195 | the row becomes SETTLEMENT_FAILED from any status, final ones included |
| `Bets.BetService.FindOldPlacedBets` | src/modules/bet/bet.service.ts:261-271 | lists every open bet placed before the cut-off, each once, as it stands, and no other |
| `RefundBatches.GroupKeyRoundTrip` | src/modules/refund-scheduler/refund-scheduler.service.ts:122-138 | user and operator are recovered from a group key if and only if neither contains a colon |
| `RefundBatches.GroupBets` | src/modules/refund-scheduler/refund-scheduler.service.ts:122-129 | the map built by the loop holds for each key the bets of that key in listed order, keys in order of first appearance |
| `RefundBatches.FirstKeysInOrder` | src/modules/refund-scheduler/refund-scheduler.service.ts:121-129 | the keys are those of the listed bets, in the order of their first bets: a longer list only adds keys behind |
| `RefundBatches.ChunksPartition` | src/modules/refund-scheduler/refund-scheduler.service.ts:141-142 | cutting a group into batches loses, repeats and reorders nothing; each batch has 1 to 5 bets and all but the last have 5 |
| `RefundBatches.BatchesPartition` | src/modules/refund-scheduler/refund-scheduler.service.ts:121-142 | the batches of a pass hold exactly the old bets as a multiset, each group in its listed order, every batch from one group |
| `RefundBatches.BatchHasOneOwner` | src/modules/refund-scheduler/refund-scheduler.service.ts:275-284 | with colon-free ids all bets of a batch belong to the user and operator the pass took from the key |
| `RefundBatches.CountersAddUp` | src/modules/refund-scheduler/refund-scheduler.service.ts:131-175 | succeeded, failed and skipped add up to the number of old bets for every pattern of outcomes |
| `ProtocolSafety.LookupIsHome` | src/modules/refund-scheduler/refund-scheduler.service.ts:138-149 | the key at which the pass looks for a bet's session is the key it was stored under if and only if the ids hold no colon |
| `ProtocolSafety.UnskippedHasNoSession` | src/modules/refund-scheduler/refund-scheduler.service.ts:227-263 | a batch that is not skipped has no active session for any of its bets, under any key |
| `ProtocolSafety.PlaceBetOnlyAdds` | src/routes/gamePlay/game-play.service.ts:101-254 | a bet request adds at most one open row and one debit of its amount under its own new id; nothing else on the agent's books and no job or batch changes |
| `ProtocolSafety.SettleSessionKeepsInv` | src/routes/gamePlay/game-play.service.ts:396-467 | settling a finished session of an open bet keeps the protocol's invariant for every answer |
| `ProtocolSafety.RefundBatchKeepsInv` | src/modules/refund-scheduler/refund-scheduler.service.ts:144-170 | a refund batch keeps it, whatever has become of its bets since they were listed |
| `ProtocolSafety.RetryKeepsInv` | src/modules/wallet-retry/wallet-retry-scheduler.service.ts:98-229 | a retry run keeps it, wherever it dies |
| `ProtocolSafety.NextKeepsInv` | src/routes/gamePlay/game-play.service.ts:1195-1198 | every step keeps it, session expiry and the flush of Redis included |
| `ProtocolSafety.StepIsSafeIff` | src/modules/refund-scheduler/refund-scheduler.service.ts:137-158 | a step makes some transaction both settled and cancelled if and only if it sends the refund of a batch in which a bet's settlement has been requested before |
| `ProtocolSafety.RunIsSafeIff` | src/modules/refund-scheduler/refund-scheduler.service.ts:137-263 | over every run, with nothing assumed about batches or overlapping passes, no transaction has both requests if and only if no such batch is ever sent |
| `ProtocolSafety.NeverSettledAndCancelled` | src/modules/bet/bet.service.ts:261-271 | over every run whose batches are still open when they are sent, no transaction has both a settle and a cancelBet request sent for it |
| `ProtocolRows.RunKeepsBacked` | src/modules/bet/bet.service.ts:118-195 | over every run an open bet has had no request sent, a won or lost one its settlement, a refunded one its cancelBet, a failed one either |
| `ProtocolRows.RequestsTellStatus` | src/routes/single-wallet-functions/single-wallet-functions.service.ts:514-524 | where batches are fresh when sent, the requests determine the status conversely: won, lost or failed after a settlement, refunded or failed after a cancelBet |
| `ProtocolFinality.RetriedCallChangesNothing` | src/modules/wallet-retry/wallet-retry-job.service.ts:107-125 | a retry finds its own job active, so a failing retry creates no second job and its failed mark changes no row |
| `ProtocolFinality.NextKeepsFinal` | src/modules/bet/bet.service.ts:160-195 | every tidy step that sends no stale batch keeps the finality invariant (active jobs wait only on failed bets, no bet is in two jobs) and every final row |
| `ProtocolFinality.FinalStaysFinal` | src/modules/bet/bet.service.ts:160-195 | over every tidy run with fresh batches a won, lost or refunded row never changes again, although no status update is guarded |
| `ProtocolFinality.TidyRunKeepsFinalInv` | src/routes/single-wallet-functions/single-wallet-functions.service.ts:514-524 | every state of a tidy run meets what the previous theorem requires |
| `ProtocolFinality.FinalSurvivesRerunIff` | src/modules/wallet-retry/wallet-retry-scheduler.service.ts:126-159 | an accepted retry run followed by a declined one leaves final rows alone if and only if the first did not die after writing the row |
| `ProtocolFinality.FinalRowsSurviveIff` | src/modules/bet/bet.service.ts:160-173 | in every state of every run, a step leaves all final rows as they are if and only if it is none of these: a batch sent with a final bet in it (for an accepted one, a won or lost bet), a failing retry of a request for a final bet, an accepted retry that writes a settlement over a refund or a refund over a settlement |
| `ProtocolFinality.RunIsFinalIff` | src/modules/refund-scheduler/refund-scheduler.service.ts:344-359 | over every run, stale batches and dying retries included, final rows are final throughout if and only if no such step occurs |
| `ProtocolFinality.TidyRunNeverOverwrites` | src/routes/single-wallet-functions/single-wallet-functions.service.ts:890-910 | in a tidy run with fresh batches no such step occurs |
| `ProtocolLimits.RefundBatchSafeIffFresh` | src/modules/refund-scheduler/refund-scheduler.service.ts:110-158 | with one pass at a time, sending a batch keeps settle and cancel requests apart if and only if all its rows are still open at that moment |
| `ProtocolLimits.RunIsSafeIffBatchesFresh` | src/modules/refund-scheduler/refund-scheduler.service.ts:98-171 | a whole run with one pass at a time settles and cancels no transaction if and only if every batch sent finds its rows open, which a second look at the rows would tell |
| `ProtocolLimits.NextKeepsPassInv` | src/modules/refund-scheduler/refund-scheduler.service.ts:98-107 | with one pass at a time, the batches still to come share no bet and none of their bets has been cancelled, however stale they are |
| `ProtocolLimits.ListingSeparates` | src/modules/refund-scheduler/refund-scheduler.service.ts:122-142 | batches made from a list without repeated transactions share no transaction |
| `ProtocolLimits.UninterruptedPassIsFresh` | src/modules/refund-scheduler/refund-scheduler.service.ts:110-171 | a pass with nothing in between sends only fresh batches |
| `ProtocolLimits.PassIsFreshRun` | src/modules/refund-scheduler/refund-scheduler.service.ts:110-171 | the effect of such a pass is that of the run of its steps, and that run is one the safety theorems cover |
| `ProtocolFailures.CashOutBehindListingIsPlausible` | src/modules/refund-scheduler/refund-scheduler.service.ts:110-142 | a bet, its listing and a cash-out before its batch make a run that meets every assumption |
| `ProtocolFailures.CashOutBehindThePass` | src/modules/refund-scheduler/refund-scheduler.service.ts:144-170 | the batch then gets the bet both settled and cancelled, and its won or lost row becomes REFUNDED or, if the agent fails the request, SETTLEMENT_FAILED |
| `ProtocolFailures.BatchRefundsCreditedBet` | src/modules/refund-scheduler/refund-scheduler.service.ts:336-359 | when the agent accepts both, the player nets the stake on top of it |
| `ProtocolFailures.RetryPaysRefundedBet` | src/modules/wallet-retry/wallet-retry-processor.service.ts:84-115 | when instead the cash-out was declined, its retry later pays the refunded bet as well and writes over its row |
| `ProtocolFailures.RefundDuringPlaySafeIff` | src/modules/refund-scheduler/refund-scheduler.service.ts:123-149 | a bet in play survives a refund pass and a later cash-out with only one of the requests sent if and only if its ids hold no colon |
| `ProtocolLimits.RegisteredIdsAreSafe` | src/routes/common-api-functions/common-api-functions.service.ts:60 | ids that registration admits hold no colon, and their session keys coincide only for the same user, agent and game |
| `ProtocolMoney.SettleSessionKeepsMoney` | src/routes/gamePlay/game-play.service.ts:396-467 | settling the worth of a game keeps the books of all bets right |
| `ProtocolMoney.StepKeepsMoney` | src/routes/gamePlay/game-play.service.ts:303-395 | so does a step with any hazards and any answer |
| `ProtocolMoney.CashOutKeepsMoney` | src/routes/gamePlay/game-play.service.ts:508-545 | so does a cash-out |
| `ProtocolMoney.PlaceBetKeepsMoney` | src/routes/gamePlay/game-play.service.ts:119-254 | so does a bet request, refused or not |
| `ProtocolMoney.RefundBatchKeepsMoney` | src/modules/refund-scheduler/refund-scheduler.service.ts:293-359 | so does a refund batch |
| `ProtocolMoney.RetryKeepsMoney` | src/modules/wallet-retry/wallet-retry-processor.service.ts:71-257 | so does a retry run, with the amounts the job kept |
| `ProtocolMoney.RunKeepsMoney` | src/routes/single-wallet-functions/single-wallet-functions.service.ts:414-914 | so does every run, with stale batches too |
| `ProtocolPlay.BetDuringPlayIsRefused` | src/routes/gamePlay/game-play.service.ts:121-139 | a bet request that meets an active session under its key, or has no positive amount, leaves the whole state as it was |
| `ProtocolPlay.BetIsTaken` | src/routes/gamePlay/game-play.service.ts:119-254 | otherwise, with an accepted debit, an active game and coefficients, the debit is the amount, the row is open with the stake in three decimals, the key holds an active session of that transaction at the start, and nothing else changes |
| `ProtocolPlay.BetIsNotTaken` | src/routes/gamePlay/game-play.service.ts:164-228 | one that fails on the way stores no session and no job, leaves the debit the agent applied, and a row only if debit and game were in order |
| `ProtocolPlay.ActiveSessionStays` | src/routes/gamePlay/game-play.service.ts:121-129 | over every step, an active session is changed or removed only by a step or cash-out under its key, its expiry, or a flush |
| `ProtocolPlay.SessionsVanish` | src/routes/gamePlay/game-play.service.ts:1195-1198 | an expiry takes one session, a flush all, and neither touches rows, jobs or books |
| `ProtocolPlay.ActiveIsInGame` | src/routes/gamePlay/game-play.service.ts:230-254 | in every reachable state an active session belongs to an open bet that has no credit and no settlement job |
| `ProtocolPlay.SettleSessionSettles` | src/routes/gamePlay/game-play.service.ts:396-467 | a settlement sends one request; accepted, it credits the amount, makes the row won or lost and removes this session only; failed, it keeps the session, marks the row and leaves one retry job with the amount if it was logged; all other rows, sessions, credits and jobs stay |
| `ProtocolPlay.OneRequest` | src/routes/gamePlay/game-play.service.ts:286-479 | a step or cash-out of a game in play settles exactly when the session machine asks for it, with the amount it asks for, and otherwise changes that session and its game alone |
| `ProtocolPlay.FinishedGameIgnoresRequests` | src/routes/gamePlay/game-play.service.ts:288-293 | without an active session no steps and cash-outs change anything in the whole state |
| `ProtocolPlay.GameIsPlayedByTheRules` | src/routes/gamePlay/game-play.service.ts:286-605 | from any state with a game in play and for any steps, cash-outs, hazards and answers: exactly when the rules pay, their amount has been settled with the answer to the request that ended the game; until then the stored step is the last line accepted, and nothing else has changed |
| `ProtocolPlay.BetIsPlayedByTheRules` | src/routes/gamePlay/game-play.service.ts:119-605 | the same from the bet on: once it is taken in any reachable state, its stake plays by the rules and is paid by them |
| `ProtocolPlay.BatchIsBooked` | src/modules/refund-scheduler/refund-scheduler.service.ts:293-359 | a refund batch that is not skipped requests exactly its bets, the agent books what it applies with the stored stakes, and sessions, credits and debits stay |
| `ProtocolPlay.RunBooksItsJob` | src/modules/wallet-retry/wallet-retry-processor.service.ts:39-66 | a retry run books what the agent applies of the whole job, with the amounts the job kept; no request is new, and a failure marks every row of the job and no other |
| `ProtocolPass.BatchIsSkippedIff` | src/modules/refund-scheduler/refund-scheduler.service.ts:227-263 | in every reachable state a batch is skipped if and only if an active session, under whatever key, belongs to one of its bets; a session of another bet does not count |
| `ProtocolPass.PassRefundsIff` | src/modules/refund-scheduler/refund-scheduler.service.ts:110-171 | a pass turns a listed bet REFUNDED if and only if the agent accepts its batch and no active session belongs to a bet of that batch |
| `ProtocolPass.SuccessCountsRefundedRows` | src/modules/refund-scheduler/refund-scheduler.service.ts:157-176 | the success counter of a pass is the number of rows it turned from open to refunded |
| `ProtocolJobs.FailedCallLeavesJob` | src/routes/single-wallet-functions/single-wallet-functions.service.ts:749-766 | after every failed call that was logged, rejected or lost, an active job of its transaction and action is there; a new one is due in five minutes, all earlier jobs stay, and nothing else adds a job |
| `ProtocolJobs.SettleFailureLeavesJob` | src/routes/single-wallet-functions/single-wallet-functions.service.ts:605-619 | the same for a settle call, the new job holding its amount |
| `ProtocolJobs.RefundFailureLeavesJob` | src/routes/single-wallet-functions/single-wallet-functions.service.ts:866-883 | the same for a refund call, the new job holding all its transactions |
| `ProtocolJobs.FailedBetsAreInJobsIff` | src/routes/single-wallet-functions/single-wallet-functions.service.ts:491-507 | over every run whose failures are logged, each bet marked failed is in a retry job throughout, if and only if no batch fails whose job is suppressed by one under the same first bet that does not hold all of it |
| `ProtocolJobs.FreshRunNeverOrphans` | src/modules/wallet-retry/wallet-retry-job.service.ts:107-125 | runs that send only fresh batches have no such batch |
| `ProtocolJobs.RunStatusTellsEnd` | src/modules/wallet-retry/wallet-retry-scheduler.service.ts:156-192 | a run leaves its job SUCCESS if and only if it completed accepted, EXPIRED if and only if it completed failed past the schedule, PENDING with one attempt more if it completed failed before that, PROCESSING if it died; no other job changes |
| `ProtocolJobs.AcceptedRunWritesRow` | src/modules/wallet-retry/wallet-retry-processor.service.ts:101-115 | an accepted run that writes its row settles or refunds the row of the job's first transaction, a settled row staying as it is, and no other row |
| `ProtocolJobs.JobChangesOnlyByItsRuns` | src/modules/wallet-retry/wallet-retry-job.service.ts:209-263 | over every step jobs are never lost and keep their transaction and content, and only a run of a job changes it |
| `ProtocolJobs.JobFollowsSchedule` | src/modules/wallet-retry/wallet-retry-scheduler.service.ts:163-192 | over every run a job that does not succeed stands where the schedule puts it after its failed runs, whatever else happens |
| `ProtocolJobs.JobExpiresAfter39Failures` | src/modules/wallet-retry/wallet-retry-job.service.ts:55-86 | so in every run 39 failures, each after its due time, expire a job |
| `ProtocolJobs.NewJobSurvives38Failures` | src/modules/wallet-retry/wallet-retry-job.service.ts:55-86 | and from every state with a new job there is a run in which it fails 38 times after its due times and is still active |
| `ProtocolConservation.StepBooksOnceIff` | src/routes/single-wallet-functions/single-wallet-functions.service.ts:723-794 | a bet becomes both credited and refunded if and only if the agent applies the refund of a credited bet, from a batch or a retry, or a retried settlement of a refunded one |
| `ProtocolConservation.AnyAnswerBooksOnceIff` | src/modules/refund-scheduler/refund-scheduler.service.ts:336-348 | a batch about to be sent books no bet both ways, whatever the agent answers, if and only if none of its bets has been credited |
| `ProtocolConservation.AnyRetryBooksOnceIff` | src/modules/wallet-retry/wallet-retry-processor.service.ts:84-207 | a retry books no bet both ways, whatever the agent answers and wherever the run dies, if and only if none of its bets is booked the other way |
| `ProtocolConservation.RunBooksOnceIff` | src/modules/refund-scheduler/refund-scheduler.service.ts:293-359 | over every run no bet is credited and refunded if and only if no such step occurs |
| `ProtocolConservation.FreshRunBooksOnce` | src/modules/refund-scheduler/refund-scheduler.service.ts:110-171 | it does not occur in runs with fresh batches |
| `ProtocolConservation.Conservation` | src/routes/gamePlay/game-play.service.ts:164-172 | in every state of every run a bet nets minus its stake, plus what its game is worth once credited, plus the stake once refunded (to within half a thousandth); its row tells a credit or a refund; there is at most one of the two unless a step books the bet twice |
| `ProtocolConservation.ExactConservation` | src/routes/gamePlay/game-play.service.ts:390-407 | for amounts that fit the stored columns that sum is exact, and as long as the bet is booked one way the status of the row tells it: minus the stake, zero, or the worth less the stake |
| `ProtocolConservation.NoRowNoCredit` | src/routes/gamePlay/game-play.service.ts:164-207 | a stake debited without a bet row is never credited or refunded |
| `ProtocolConservation.RetriedAmountExactIff` | src/modules/wallet-retry/wallet-retry-job.service.ts:147-148 | a retried settlement carries the amount of the direct one if and only if that amount has at most four decimals |
| `Backend.RetryJobService.CreateRetryJob` | src/modules/wallet-retry/wallet-retry-job.service.ts:105-160 | a job due in five minutes is added unless one for the same transaction and action is pending or processing; no other job changes |
| `Backend.RetryJobService.RescheduleAfterFailure` | src/modules/wallet-retry/wallet-retry-scheduler.service.ts:171-192 | the job gets the next due time and one attempt more, or expires when the schedule has none; no other job changes |
| `Backend.RetryJobService.UpdateStatus` | src/modules/wallet-retry/wallet-retry-job.service.ts:209-226 | exactly that job gets the status |
| `Backend.Server.SettleBet` | src/routes/single-wallet-functions/single-wallet-functions.service.ts:414-641 | reports success exactly for status 0000; the request, the agent's books, the retry job and the failed mark are those of the protocol's settle call, for which `ProtocolJobs.SettleFailureLeavesJob` and `ProtocolPlay.SettleSessionSettles` say what is left |
| `Backend.Server.RefundBet` | src/routes/single-wallet-functions/single-wallet-functions.service.ts:643-914 | the same for a cancelBet call, with `ProtocolJobs.RefundFailureLeavesJob` and `ProtocolPlay.BatchIsBooked`; a failure makes one job, under the first transaction, and marks every bet |
| `Backend.Server.PerformBetFlow` | src/routes/gamePlay/game-play.service.ts:119-254 | the stores end as the protocol's bet step says, on every early return too; `ProtocolPlay` says which requests it refuses and what the others leave |
| `Backend.Server.PerformStepFlow` | src/routes/gamePlay/game-play.service.ts:286-479 | the field-by-field updates of a step amount to the protocol's step, which settles exactly by the rules (`ProtocolPlay.OneRequest`) |
| `Backend.Server.PerformCashOutFlow` | src/routes/gamePlay/game-play.service.ts:506-605 | the same for a cash-out |
| `Backend.Server.CleanupOnDisconnect` | src/routes/gamePlay/game-play.service.ts:1195-1198 | the flush removes every session and leaves rows, jobs and books alone |
| `Backend.Server.FindSessionInBatch` | src/modules/refund-scheduler/refund-scheduler.service.ts:147-150 | true exactly when some bet of the batch has its own active session |
| `Backend.Server.RefundOneBatch` | src/modules/refund-scheduler/refund-scheduler.service.ts:144-169 | a batch is skipped, refunded and marked, or failed, as the protocol says, and the outcome tells which |
| `Backend.Server.ProcessRefunds` | src/modules/refund-scheduler/refund-scheduler.service.ts:93-185 | the nested loops have the effect of all batches of the listing in order, each counter is the number of bets with that outcome, the three add up to the old bets, and the success counter is the number of rows that turned from open to refunded |
| `Backend.Server.ExecuteRetry` | src/modules/wallet-retry/wallet-retry-processor.service.ts:39-66 | a retry repeats the call of its job and nothing else |
| `Backend.Server.UpdateRetriedBet` | src/modules/wallet-retry/wallet-retry-processor.service.ts:101-115 | after an accepted retry only the row of the job's first transaction changes |
| `Backend.Server.StartRetryJob` | src/modules/wallet-retry/wallet-retry-scheduler.service.ts:117-147 | pending jobs and stale processing ones are taken and marked, finished ones are left alone |
| `Backend.Server.ProcessRetryJob` | src/modules/wallet-retry/wallet-retry-scheduler.service.ts:116-224 | a run has the effect of the protocol's retry step for every answer and every point at which it may die; `ProtocolJobs.RunStatusTellsEnd` says what that leaves of the job |
| `RetrySchedule.GridIsSearch` | src/modules/wallet-retry/wallet-retry-job.service.ts:55-71 | after the three fixed attempts the ceiling arithmetic gives up exactly past 70.5 hours and otherwise finds the first slot 30 min + k * 2 h not before the elapsed time, if and only if the clock is not 90 minutes or more behind the first failure |
| `RetrySchedule.NextSlot` | src/modules/wallet-retry/wallet-retry-job.service.ts:60-71 | a run past its slot is sent to a later one, the very next if that is still ahead |
| `RetrySchedule.FailedRunAdvances` | src/modules/wallet-retry/wallet-retry-scheduler.service.ts:163-192 | a failed run after its due time never moves the due time back, adds one attempt, and ends a job that has had 38 |
| `RetrySchedule.FailuresAreCounted` | src/modules/wallet-retry/wallet-retry-job.service.ts:231-263 | the stored attempt is the number of failed runs, never above 38, and no due time lies beyond 70.5 hours |
| `RetrySchedule.ExpiresAfter39Failures` | src/modules/wallet-retry/wallet-retry-job.service.ts:81-86 | a job that always fails is EXPIRED after 39 failed runs, although the stored maximum is never compared |
| `RetrySchedule.SomeJobSurvives38` | src/modules/wallet-retry/wallet-retry-job.service.ts:81-86 | that bound is tight: there are runs with 38 failures and the job still pending |
| `RetrySchedule.DueTimeNeverDecreases` | src/modules/wallet-retry/wallet-retry-scheduler.service.ts:163-181 | over the life of a job its due time never decreases |
| `RetrySchedule.ProgressIffAfterDue` | src/modules/wallet-retry/wallet-retry-job.service.ts:60-71 | on the grid a failed run moves the due time on if and only if it is rescheduled after, not at, the due millisecond |
| `RetrySchedule.WalletRetryJob.RescheduleAfterFailure` | src/modules/wallet-retry/wallet-retry-scheduler.service.ts:163-191 | the row after the failure branch is the one the theorems above speak of |
| `RetrySchedule.WalletRetryJob.ScheduleNextRetry` | src/modules/wallet-retry/wallet-retry-job.service.ts:231-263 | without a next time the job expires and keeps its attempt and due time, with one it is pending again at that time |
| `RetryJobs.JobsStaySound` | src/modules/wallet-retry/wallet-retry-scheduler.service.ts:98-229 | in every timely interleaving of servers, crashes and job creation there is at most one pending or processing job per transaction and action, and SUCCESS and EXPIRED are never left |
| `RetryJobs.NextKeepsInv` | src/modules/wallet-retry/wallet-retry-scheduler.service.ts:100-147 | each single access keeps every run the holder of its job's live lock |
| `RetryJobs.LoneRunEndsJob` | src/modules/wallet-retry/wallet-retry-scheduler.service.ts:100-229 | a run that nothing comes between is refused while the lock is live, and otherwise ends its job as told if the job was active, changes no other job and leaves the lock free |
| `RetryJobs.SoundIffTimely` | src/modules/wallet-retry/wallet-retry-scheduler.service.ts:101-147 | from any sound state and for any step: every interleaving afterwards of the runs under way with others leaves finished jobs finished, if and only if the step lets no run's 300 seconds pass and does not flush Redis during a run |
| `BetLock.BetFlowsExcludeEachOther` | src/routes/gamePlay/game-play.service.ts:108-129 | in every timely interleaving of bet flows no active session is overwritten and no release removes another flow's lock, though locks carry no owner |
| `BetLock.LoneFlowStoresSession` | src/routes/gamePlay/game-play.service.ts:108-254 | a flow that nothing comes between is refused while the lock is live, and otherwise stores its session unless one is active and leaves the lock free |
| `BetLock.SafeIffTimely` | src/modules/redis/redis.service.ts:121-143 | from any state the flows can be in and for any step: every interleaving afterwards is safe if and only if the step does not let the 30 seconds of the flow under way pass and does not flush Redis during it |
| `LeaderLease.ElectedServerLeads` | src/modules/redis/leader-election.service.ts:46-68 | a successful attempt makes the server the holder of the lease, for five seconds |
| `LeaderLease.RenewedLeaderStays` | src/modules/redis/leader-election.service.ts:125-152 | a leader whose writes land less than 5 s apart never fails a renewal, and no other server's attempt succeeds, in any interleaving of reads and writes |
| `LeaderLease.StableIffRenewed` | src/modules/redis/leader-election.service.ts:46-83 | for any step: the leadership is stable in every interleaving afterwards if and only if the step does not let the lease run out, flush Redis or give the lease up |
| `LeaderLease.RenewalExtends` | src/modules/redis/leader-election.service.ts:129-147 | reading its own live lease and writing it back gives the leader the full five seconds from the write |
| `LeaderLease.WritesInTimeKeepLease` | src/modules/redis/leader-election.service.ts:125-152 | by the times of the writes alone: a leader that writes less than 5 s apart, with no flush and no release, never fails a renewal and no other attempt succeeds, in any interleaving |
| `LeaderLease.RenewedIffWritesInTime` | src/modules/redis/leader-election.service.ts:141-147 | that condition is the same as never letting the stored expiry pass |
| `LeaderLease.ReleaseFreesLease` | src/modules/redis/leader-election.service.ts:166-183 | a lease given up can be taken at once, and a server that does not hold it takes nothing away by giving up |
| `LeaderLease.TakeoverIff` | src/modules/redis/leader-election.service.ts:52-58 | another server takes the lease if and only if the lease time has passed without a write |
| `LeaderLease.LateRenewalStealsIff` | src/modules/redis/leader-election.service.ts:129-147 | a renewal robs another server of a live lease if and only if its write comes after the lease it had read was over |
| `LeaderLease.LeaderElectionService.TryBecomeLeader` | src/modules/redis/leader-election.service.ts:46-83 | succeeds exactly when no live lease exists, and starts the renewal then |
| `LeaderLease.LeaderElectionService.RenewLease` | src/modules/redis/leader-election.service.ts:125-152 | extends the lease exactly when it is this server's, otherwise clears the flag and stops the renewal |
| `LeaderLease.LeaderElectionService.IsLeader` | src/modules/redis/leader-election.service.ts:89-110 | answers from Redis, corrects the local flag, and starts or stops the renewal only when the flag was wrong |
| `LeaderLease.LeaderElectionService.ReleaseLeadership` | src/modules/redis/leader-election.service.ts:166-183 | removes the lease only if it is this server's |
| `RedisStore.RedisClient.SetIfAbsent` | src/modules/redis/redis.service.ts:121-130 | acquires exactly when no live entry exists and leaves a live one untouched |
| `RedisStore.RedisClient.FlushAll` | src/modules/redis/redis.service.ts:62-70 | nothing remains, whatever its expiry time |
| `HazardPatterns.GenerateRandomPattern` | src/modules/hazard/hazard-generator.service.ts:18-28 | the pattern is strictly increasing, in range and of the asked size, holds exactly the columns drawn, and the last draw was a new one |
| `HazardPatterns.SortSorted` | src/modules/hazard/hazard-generator.service.ts:94-95 | sorting orders and permutes |
| `HazardPatterns.PatternsEqualIffSameColumns` | src/modules/hazard/hazard-generator.service.ts:92-97 | two patterns are equal if and only if they are the same multiset |
| `HazardRotation.RefreshYieldsNewestIff` | src/modules/hazard/hazard-scheduler.service.ts:547-563 | on every server a refresh yields the newest state if and only if it is in Redis or in the server's own copy |
| `HazardRotation.LoadYieldsNewest` | src/modules/hazard/hazard-scheduler.service.ts:541-586 | a read that finds the newest state ends with it, or with the one it has itself rotated to, and keeps the invariant |
| `HazardRotation.NextKeepsInv` | src/modules/hazard/hazard-scheduler.service.ts:415-481 | no step, of whichever leader, rotates before the change time of the state it replaces, each state takes over the announced pattern, and a flush leaves that as it is |
| `HazardRotation.RunKeepsInv` | src/modules/hazard/hazard-scheduler.service.ts:390-403 | the same over every run with lost or late notifications, timers of any lag, lost leases, restarts and flushes |
| `HazardRotation.ReadReturns` | src/modules/hazard/hazard-scheduler.service.ts:541-586 | what a read returns in one instant, with no condition: what is in force if the entry is in Redis, else what the server's own copy says, else a new draw |
| `HazardRotation.ReadIsCoherentIff` | src/modules/hazard/hazard-scheduler.service.ts:711-721 | a read returns what is in force if and only if the entry is in Redis or the server's own copy, or draw, agrees with it |
| `HazardRotation.ReadIsCoherent` | src/modules/hazard/hazard-scheduler.service.ts:711-721 | a read that finds the newest state returns the pattern in force at that instant on any server, and a rotation it sets off is invisible |
| `HazardRotation.ReadIsLinearizable` | src/modules/hazard/hazard-scheduler.service.ts:711-721 | a read that takes time returns a pattern that was in force at some instant between its start and its end |
| `HazardRotation.NextPatternLastsAnInterval` | src/modules/hazard/hazard-scheduler.service.ts:445-465 | an announced pattern is in force for one unbroken stretch of at least a refresh interval |
| `HazardRotation.RotationHandsOverIff` | src/modules/hazard/hazard-scheduler.service.ts:436-451 | a rotation keeps the hand-over if and only if the newest state is past its change time and the entry is in Redis, or else the server's own copy, or draw, holds the announced pattern |
| `HazardRotation.SecondRotationHandsOverIff` | src/modules/hazard/hazard-scheduler.service.ts:565-572 | since a rotation does not look at the change time, a second one keeps the hand-over if and only if a whole interval has passed |
| `HazardRotation.EveryPatternValid` | src/modules/hazard/hazard-scheduler.service.ts:498-503 | every pattern in Redis, in a copy, in a read under way or in the history is a valid one |
| `HazardRotation.PromptRunEntryIff` | src/routes/gamePlay/game-play.service.ts:1195-1198 | at every instant of any run in which states are replaced within half an interval after their change time, the entry is in Redis if and only if no flush came after the last installation |
| `HazardRotation.PromptRunNeverMissesEntry` | src/modules/hazard/hazard-scheduler.service.ts:470-472 | without a flush the entry is therefore present at every instant of such a run, and the run needs no assumption about Redis |
| `HazardRotation.EntryLastsExactlyHalfInterval` | src/modules/hazard/hazard-scheduler.service.ts:471 | for intervals of whole multiples of two seconds that half interval is, until a flush, exactly how long the entry outlives the change time |
| `HazardRotation.PastIsNotRead` | src/modules/hazard/hazard-scheduler.service.ts:541-586 | no operation depends on the states installed before the newest |
| `HazardRotation.FlushHealsIff` | src/modules/hazard/hazard-scheduler.service.ts:637-665 | after a flush and the first read of a server without a copy, everything proved holds again from the new state on if and only if no other server still holds a fresh copy of an old state; one refresh interval is enough |
| `HazardDraws.InstallsIff` | src/modules/hazard/hazard-scheduler.service.ts:541-586 | while nothing is missing a state is installed by the leader alone: at its due timer, or at its read past the change time |
| `HazardDraws.StepInstalls` | src/modules/hazard/hazard-scheduler.service.ts:452-481 | an installing step adds one state: the announced pattern is the one drawn for it, the hazard count the configured one, the change time one interval ahead; memory, Redis, history and, on the leader, the timer hold it; any other step adds none |
| `HazardDraws.AnnouncedAreDrawn` | src/modules/hazard/hazard-scheduler.service.ts:452-455 | over every run, whatever is missing, the patterns announced are those drawn by the installing steps, in order, and no others |
| `HazardDraws.RunInstallsByConfig` | src/modules/hazard/hazard-scheduler.service.ts:311-342 | over every run each state installed has the configured hazard count and lasts one interval, and those installed before stay |
| `HazardDraws.DrawnPatternsComeIntoForce` | src/modules/hazard/hazard-scheduler.service.ts:445-465 | over every run in which no state is missing when needed, the pattern drawn by the k-th installing step is what players meet from that state's change time to the next one's |
| `HazardDraws.LeaderReadsUpToDate` | src/modules/hazard/hazard-scheduler.service.ts:565-572 | what the leader reads has its change time ahead, and is the newest state when nothing is missing |
| `HazardDraws.LeaderKeepsTimerIff` | src/modules/hazard/hazard-scheduler.service.ts:374-403 | a leader with a timer keeps one through every step but its own restart, a newly elected one starts without |
| `HazardDraws.LeaderRotatesOn` | src/modules/hazard/hazard-scheduler.service.ts:390-403 | over every run without restarts the leader has a timer, and once that is due the timer installs a state |
| `HazardDraws.ForgetfulServerAsksRedis` | src/modules/hazard/hazard-scheduler.service.ts:79-92 | after a notification or a restart a server finds what is in Redis and nothing else, other servers notice nothing, and a restart elects only while nobody leads |
| `HazardScheduler.HazardStore.AddToHistory` | src/modules/hazard/hazard-scheduler.service.ts:498-503 | the newest state comes first and at most 20 are kept |
| `HazardScheduler.Scheduler.ScheduleRotation` | src/modules/hazard/hazard-scheduler.service.ts:374-403 | only the leader sets its timer, which replaces the pending one |
| `HazardScheduler.Scheduler.RotateGameDifficulty` | src/modules/hazard/hazard-scheduler.service.ts:415-481 | on the leader memory, Redis, history and timer end as the protocol's rotation says, the drawn pattern being announced (`HazardDraws.StepInstalls`); elsewhere nothing changes |
| `HazardScheduler.Scheduler.InitializeGameDifficulty` | src/modules/hazard/hazard-scheduler.service.ts:311-357 | a first state is stored everywhere; only the leader gets a timer |
| `HazardScheduler.Scheduler.GetCurrentState` | src/modules/hazard/hazard-scheduler.service.ts:541-586 | the refresh, the rotation and the fallback of a read amount to the protocol's read, and the copy kept is the state returned |
| `HazardScheduler.Scheduler.OnRotationNotification` | src/modules/hazard/hazard-scheduler.service.ts:801-811 | a notification only drops this server's copy |
| `HazardScheduler.Scheduler.GetActiveHazards` | src/modules/hazard/hazard-scheduler.service.ts:711-721 | in a cluster that meets the invariant, with the newest state in Redis or in memory, the columns returned are those in force at that instant by the list of all states installed, and the invariant is kept |
| `HazardScheduler.SeenByKeepsInv` | src/modules/hazard/hazard-scheduler.service.ts:33-37 | what holds of the cluster holds of what one server sees of it |
| `HazardScheduler.LoadSeen` | src/modules/hazard/hazard-scheduler.service.ts:541-586 | a read does to what its server sees exactly what it does in the cluster |
| `Fairness.LowerKeepsUserSeed` | src/modules/fairness/fairness.service.ts:110-120 | lower-casing a valid seed gives a valid seed of the same hexadecimal value without upper case, and is idempotent |
| `Fairness.NextKeepsInv` | src/modules/fairness/fairness.service.ts:53-159 | the published hash is always that of the stored seed, the nonce counts the rotations, and nothing revealed or committed is altered |
| `Fairness.RevealOpensCommitment` | src/routes/gamePlay/game-play.service.ts:422-442 | over every interleaving the record stored with a settled bet opens the hash and carries the client seed in force when that bet was placed |
| `Fairness.BetCommits` | src/routes/gamePlay/game-play.service.ts:225-247 | a bet commits the player to the stored seeds, made first if there are none, and changes nothing else |
| `Fairness.SettlementReveals` | src/routes/gamePlay/game-play.service.ts:422-453 | a settlement stores a record that opens the bet's commitment; then the next seed has a new server seed with its hash, the next nonce and the same client seed, exactly unless the rotation failed |
| `Fairness.BetIsCommittedToSetSeed` | src/modules/fairness/fairness.service.ts:105-131 | after a valid seed is set, the next bet is committed to it, whatever bets, settlements and rotations come between, until it is set again or the record expires; an invalid one changes nothing |
| `FairnessSecrecy.StepIsSecretIff` | src/routes/gamePlay/game-play.service.ts:445-453 | a revealed server seed is still in play after a step if and only if the step settles a bet while another one placed under the same seed is open, or without the rotation that retires the stored seed |
| `FairnessSecrecy.RunIsSecretIff` | src/modules/fairness/fairness.service.ts:137-159 | over every run no revealed seed is ever in play if and only if no such settlement occurs |
| `FairnessSecrecy.SecondBetIsExposed` | src/routes/gamePlay/game-play.service.ts:225-247 | it does occur: of two open bets of one user in two games, settling the first reveals the seed of the second |
| `Fairness.FairnessService.GetOrCreateFairness` | src/modules/fairness/fairness.service.ts:53-89 | an existing record is returned as it is, a missing one is created with nonce 0 |
| `Fairness.FairnessService.SetUserSeed` | src/modules/fairness/fairness.service.ts:105-131 | refuses all but 16 hexadecimal digits without a change, otherwise replaces the client seed only |
| `Fairness.FairnessService.RotateSeeds` | src/modules/fairness/fairness.service.ts:137-159 | replaces the server seed together with its hash and counts the rotation |

## Left out

- HTTP, sockets, acknowledgement packets, logging, audit records, controllers, guards, token handling: an agent's answer
  is a parameter of each wallet step, and whether the audit record was written, without which no retry job is created,
  is part of that parameter.
- `HazardRotation`: after a flush nobody holds the lease, and a server takes it only when it starts up (`StartUp`). A server
  that regains the lease after an exception in a renewal, with its old timer still set, is not modelled, nor is the second
  a follower waits before it initialises.
- Interleaving inside a bet, step, cash-out or refund batch: step and cash-out take no lock in the code, so two of them
  at the same session may overlap there; in `Protocol` each is one step.
- Backend.Server.PerformBetFlow: the lock around the flow is not taken in the class; it is modelled in `BetLock`.
- Backend.Server.ProcessRetryJob: the lock of the job likewise, in `RetryJobs`.
- Backend.Server.ProcessRefunds: the lock of the pass is not taken in the class; `Protocol` lets passes overlap, and
  `ProtocolLimits.OnePass` is what the lock gives. It requires that each row is stored under its own transaction id, which every operation on rows keeps. A failed look-up of a session,
  which makes the code skip a batch, is the step `DropBatch` of `Protocol`.
- Job creation is part of the wallet call it follows; the code starts it without waiting for it.
- A failing write of a bet row inside a direct step, cash-out or refund batch: it would leave a settled or refunded bet
  open. In a retry the failing write is modelled. A status write of the job that fails after the row was written counts
  as a run that dies there.
- Real-valued amounts stand for the source's floating point; `toFixed` and the decimal columns round to the nearest
  unit, ties upward (section 21.1.3.3 of ECMA-262). Hours of the retry schedule are whole milliseconds.
- The fields of a session, a row and a job that no modelled decision reads: round id, currency, balance, coefficients
  shown to the player, game payloads. The check that a session carries a transaction and a round id is left out, since
  every session is created with both.
- A retried batch refund marks only its first bet REFUNDED and a retried settlement of a zero win writes the text of an
  absent amount; both are modelled as the code does them, the second as a lost row or a failed write.
- The order in which due retry jobs are picked, their limit of 500, the parallelism of ten and the scheduler's own lock:
  the order of retry runs is arbitrary in the model. The attempt number a run starts from is that of the stored row.
- Seeds are not part of the sessions of `Protocol`; they are modelled on their own in `Fairness`. The fallback for
  records without seeds is left out, and so is the decimal computed from the hash.
- One game and difficulty at a time in the hazard modules. Initialisation is one step there: its lock falls through when
  it is not acquired, so two servers may initialise at once in the code.
- The forced rotation and the change of the refresh interval, which may rotate early, and the fallback state after a
  failed initialisation.
- The second look of a follower at Redis inside one read: in the same instant it finds what the first look found.
- How fast a new leader appears: a lost lease stops the renewal, and followers try for it only at start-up.
- `HazardPatterns.GenerateRandomPattern`: the random source is a list of draws that holds enough different columns; with
  an endless run of repeats the source's loop would not end.
- `HazardRotation.EntryLastsExactlyHalfInterval`: other intervals round the time to live up to a whole second, so the
  entry lasts up to a second longer.
- Where the documents of the repository describe a cron-driven hazard refresh, a SETTLED status or a manual trigger for
  refunds, the model follows the code, which has none of them.
- Statistics, history lists, monthly clean-ups, last-win broadcasts, user, agent, game and currency administration: no
  promise modelled here depends on them.
