/** Retry jobs over whole runs: every failed call leaves one, and each follows the schedule to success or to its end. */
module ProtocolJobs {
  import opened Common
  import opened GameSession
  import opened Bets
  import opened RefundBatches
  import opened Protocol
  import opened ProtocolSafety
  import opened RetrySchedule

  // ---------------------------------------------------------------- a failed call leaves a job

  /** A failure whose audit record was written. */
  predicate LoggedFailure(answer: Answer) {
    Failing(answer) && answer.logged
  }

  /** A logged failure leaves an active job: the one there was, or a new one due in five minutes; nothing else adds a job. */
  lemma FailedCallLeavesJob(jobs: seq<Job>, answer: Answer, tx: TxId, kind: JobKind, now: int)
    ensures var after := JobsAfter(jobs, answer, tx, kind, now);
            && (LoggedFailure(answer) ==> HasActiveJob(after, tx, kind))
            && after == (if LoggedFailure(answer) && !HasActiveJob(jobs, tx, kind)
                         then jobs + [Job(tx, kind, JobRow(Pending, 0, now + 5 * MINUTE, now))] else jobs)
  {
    var added := jobs + [NewJob(tx, kind, now)];
    assert Active(added[|jobs|]) && added[|jobs|].tx == tx && SameAction(added[|jobs|].kind, kind);
    assert HasActiveJob(added, tx, kind);
  }

  /** After a failed settle call that was logged, its settlement is in an active job, with the amount of the call if the job is new. */
  lemma SettleFailureLeavesJob(w: World, tx: TxId, winAmount: real, stored: Option<real>, answer: Answer)
    ensures var jobs := CallSettle(w, tx, winAmount, stored, answer).jobs;
            && (LoggedFailure(answer) ==> HasActiveJob(jobs, tx, SettleJob(stored)))
            && jobs == (if LoggedFailure(answer) && !HasActiveJob(w.jobs, tx, SettleJob(stored))
                        then w.jobs + [NewJob(tx, SettleJob(stored), w.now)] else w.jobs)
  {
    FailedCallLeavesJob(w.jobs, answer, tx, SettleJob(stored), w.now);
  }

  /** After a failed refund call that was logged, an active refund job is under its first transaction; a new one holds all of the call. */
  lemma RefundFailureLeavesJob(w: World, txns: seq<RefundTxn>, answer: Answer)
    requires txns != []
    ensures var jobs := CallRefund(w, txns, answer).jobs;
            && (LoggedFailure(answer) ==> HasActiveJob(jobs, txns[0].tx, RefundJob(txns)))
            && jobs == (if LoggedFailure(answer) && !HasActiveJob(w.jobs, txns[0].tx, RefundJob(txns))
                        then w.jobs + [NewJob(txns[0].tx, RefundJob(txns), w.now)] else w.jobs)
  {
    FailedCallLeavesJob(w.jobs, answer, txns[0].tx, RefundJob(txns), w.now);
  }

  // ---------------------------------------------------------------- one run of a job

  /** The job a retry repeats is active while it runs, so a failing call adds none. */
  lemma CallAgainAddsNoJob(w: World, j: nat, job: Job, answer: Answer)
    requires j < |w.jobs| && Active(w.jobs[j]) && w.jobs[j].tx == job.tx && w.jobs[j].kind == job.kind && JobSent(w.wallet, job)
    ensures CallAgain(w, job, answer).jobs == w.jobs && CallAgain(w, job, answer).now == w.now
  {
    match job.kind
    case SettleJob(stored) =>
      assert HasActiveJob(w.jobs, job.tx, SettleJob(StoredWin(WinToSend(stored))));
      SettleFailureLeavesJob(w, job.tx, WinToSend(stored), StoredWin(WinToSend(stored)), answer);
    case RefundJob(txns) =>
      assert HasActiveJob(w.jobs, job.tx, RefundJob(txns));
      RefundFailureLeavesJob(w, txns, answer);
  }

  /** Where a run leaves its job: processing if it died, else success, the next due time, or expired past the schedule. */
  function RowLeft(row: JobRow, answer: Answer, end: RunEnd, now: int): JobRow {
    if !end.Completed? then row.(status := Processing)
    else if answer.Accepted? then row.(status := Success)
    else
      match CalculateNextRetryTime(row.retryAttempt + 1, row.initialFailureAt, now)
      case None => row.(status := Expired)
      case Some(next) => JobRow(Pending, row.retryAttempt + 1, next, row.initialFailureAt)
  }

  lemma RunLeavesRow(w: World, j: nat, answer: Answer, rowWritten: bool, end: RunEnd)
    requires Inv(w) && j < |w.jobs| && Active(w.jobs[j])
    ensures var w' := RetryRun(w, j, answer, rowWritten, end);
            w'.jobs == w.jobs[j := w.jobs[j].(row := RowLeft(w.jobs[j].row, answer, end, w.now))] && w'.now == w.now
  {
    var started := w.(jobs := WithJobStatus(w.jobs, j, Processing));
    assert JobSent(w.wallet, w.jobs[j]);
    CallAgainAddsNoJob(started, j, w.jobs[j], answer);
  }

  /** The status a run leaves tells how it went, and no other job is touched. */
  lemma RunStatusTellsEnd(w: World, j: nat, answer: Answer, rowWritten: bool, end: RunEnd)
    requires Inv(w) && j < |w.jobs| && Active(w.jobs[j])
    ensures var jobs := RetryRun(w, j, answer, rowWritten, end).jobs;
            var late := w.now - w.jobs[j].row.initialFailureAt > LAST_SLOT && w.jobs[j].row.retryAttempt >= 3;
            && |jobs| == |w.jobs| && (forall i :: 0 <= i < |jobs| && i != j ==> jobs[i] == w.jobs[i])
            && jobs[j].tx == w.jobs[j].tx && jobs[j].kind == w.jobs[j].kind
            && (jobs[j].row.status.Success? <==> end.Completed? && answer.Accepted?)
            && (jobs[j].row.status.Expired? <==> end.Completed? && !answer.Accepted? && late)
            && (jobs[j].row.status.Pending? <==> end.Completed? && !answer.Accepted? && !late)
            && (jobs[j].row.status.Processing? <==> !end.Completed?)
            && (jobs[j].row.status.Pending? ==> jobs[j].row.retryAttempt == w.jobs[j].row.retryAttempt + 1)
  {
    RunLeavesRow(w, j, answer, rowWritten, end);
    if w.jobs[j].row.retryAttempt >= 3 {
      GridIsSearch(w.jobs[j].row.retryAttempt + 1, w.jobs[j].row.initialFailureAt, w.now);
    }
  }

  /** What an accepted run writes to the row of its first transaction; no other row changes. */
  lemma AcceptedRunWritesRow(w: World, j: nat, end: RunEnd)
    requires Inv(w) && j < |w.jobs| && Active(w.jobs[j]) && (end.Completed? || end.DiesAfterRow?)
    ensures var tx, bets := w.jobs[j].tx, RetryRun(w, j, Accepted, true, end).bets;
            && tx in w.bets && bets.Keys == w.bets.Keys && (forall t :: t in bets && t != tx ==> bets[t] == w.bets[t])
            && match w.jobs[j].kind
               case RefundJob(_) => bets[tx] == w.bets[tx].(status := Refunded)
               case SettleJob(stored) =>
                 if w.bets[tx].status.Won? || w.bets[tx].status.Lost? then bets[tx] == w.bets[tx]
                 else bets[tx].winAmount == Column(stored) && bets[tx].status == (if WinToSend(stored) > 0.0 then Won else BetStatus.Lost)
  {
    var job := w.jobs[j];
    assert JobSent(w.wallet, job);
    JobTxsSent(w, job);
    CallAgainRepeats(w.(jobs := WithJobStatus(w.jobs, j, Processing)), job, Accepted);
  }

  // ---------------------------------------------------------------- jobs in a run

  lemma SettlePathsOnlyAddJobs(w: World, e: Event)
    requires e.StepRequest? || e.CashOutRequest?
    ensures w.jobs <= Next(w, e).jobs
  {
    if e.key in w.sessions && w.sessions[e.key].isActive {
      var s := w.sessions[e.key];
      if e.CashOutRequest? {
        SettleFailureLeavesJob(w.(sessions := w.sessions[e.key := CloseForCashOut(s)]), s.txId, s.winAmount, StoredWin(s.winAmount), e.answer);
      } else {
        match TakeStep(s, e.lineNumber, e.hazards)
        case Ended(s', amount) =>
          var saved := w.(sessions := w.sessions[e.key := s'], games := Recorded(w.games, s.txId, s'));
          SettleFailureLeavesJob(saved, s.txId, amount, StoredWin(amount), e.answer);
        case _ =>
      }
    }
  }

  /** The jobs there are stay, and each changes only by its own runs. */
  lemma JobChangesOnlyByItsRuns(w: World, e: Event, j: nat)
    requires Inv(w) && j < |w.jobs|
    ensures var w' := Next(w, e);
            && j < |w'.jobs| && w'.jobs[j].tx == w.jobs[j].tx && w'.jobs[j].kind == w.jobs[j].kind
            && (!(e.Retry? && e.job == j) ==> w'.jobs[j] == w.jobs[j])
  {
    match e
    case BetRequest(_, _, _, _, _, _) => PlaceBetOnlyAdds(w, e);
    case StepRequest(_, _, _, _) => SettlePathsOnlyAddJobs(w, e);
    case CashOutRequest(_, _) => SettlePathsOnlyAddJobs(w, e);
    case Retry(i, answer, rowWritten, end) =>
      if i < |w.jobs| && Active(w.jobs[i]) {
        RunLeavesRow(w, i, answer, rowWritten, end);
      }
    case NextBatch(answer) =>
      if w.pass != [] {
        assert BatchKnown(w.bets, w.pass[0]);
        RefundFailureLeavesJob(w.(pass := w.pass[1..]), RefundTxns(w.pass[0]), answer);
      }
    case _ =>
  }

  /** The step is a run of job j that completes and fails. */
  predicate FailsJob(w: World, e: Event, j: nat) {
    e.Retry? && e.job == j && e.end.Completed? && !e.answer.Accepted? && j < |w.jobs| && Active(w.jobs[j])
  }

  /** The times at which runs of job j completed and failed, in order. */
  function FailedRunTimes(w: World, es: seq<Event>, j: nat): seq<int> {
    if es == [] then []
    else
      var before, e := Run(w, es[..|es| - 1]), es[|es| - 1];
      FailedRunTimes(w, es[..|es| - 1], j) +
      if FailsJob(before, e, j) then [before.now] else []
  }

  /** No run of job j succeeds. */
  predicate NeverSucceeds(es: seq<Event>, j: nat) {
    forall i :: 0 <= i < |es| && es[i].Retry? && es[i].job == j && es[i].answer.Accepted? ==> !es[i].end.Completed?
  }

  /** A row as the schedule has it, except that a run that died may have left it in PROCESSING. */
  predicate FollowsSchedule(row: JobRow, scheduled: JobRow) {
    row == scheduled || (scheduled.status.Pending? && row == scheduled.(status := Processing))
  }

  lemma FollowsOneMore(w: World, scheduled: JobRow, j: nat, e: Event)
    requires Inv(w) && j < |w.jobs| && FollowsSchedule(w.jobs[j].row, scheduled)
    requires scheduled.status.Pending? || scheduled.status.Expired?
    requires e.Retry? && e.job == j && (e.answer.Accepted? ==> !e.end.Completed?)
    ensures FollowsSchedule(Next(w, e).jobs[j].row, if FailsJob(w, e, j) && !scheduled.status.Expired? then AfterFailedRun(scheduled, w.now) else scheduled)
  {
    if Active(w.jobs[j]) {
      RunLeavesRow(w, j, e.answer, e.rowWritten, e.end);
    }
  }

  lemma ScheduledStatus(row: JobRow, times: seq<int>)
    requires row.status.Pending?
    ensures AfterFailedRuns(row, times).status.Pending? || AfterFailedRuns(row, times).status.Expired?
  {}

  /** Over every run a job that does not succeed stands where the schedule puts it after its failed runs, whatever else happens. */
  lemma {:induction false} JobFollowsSchedule(w: World, es: seq<Event>, j: nat)
    requires Inv(w) && PlausibleRun(w, es) && j < |w.jobs| && w.jobs[j].row.status.Pending? && NeverSucceeds(es, j)
    ensures var w' := Run(w, es);
            && Inv(w') && j < |w'.jobs|
            && FollowsSchedule(w'.jobs[j].row, AfterFailedRuns(w.jobs[j].row, FailedRunTimes(w, es, j)))
    decreases |es|
  {
    if es != [] {
      var n := |es| - 1;
      var front, e := es[..n], es[n];
      var before, times := Run(w, front), FailedRunTimes(w, front, j);
      assert es == front + [e];
      PlausiblePrefix(w, front, e);
      JobFollowsSchedule(w, front, j);
      RunOfSnoc(w, front, e);
      NextKeepsInv(before, e);
      JobChangesOnlyByItsRuns(before, e, j);
      var failed := FailsJob(before, e, j);
      assert FailedRunTimes(w, es, j) == if failed then times + [before.now] else times;
      ScheduledStatus(w.jobs[j].row, times);
      FailuresSnoc(w.jobs[j].row, times, before.now);
      if e.Retry? && e.job == j {
        FollowsOneMore(before, AfterFailedRuns(w.jobs[j].row, times), j, e);
      }
    }
  }

  lemma {:induction false} PlausiblePrefix(w: World, es: seq<Event>, e: Event)
    requires PlausibleRun(w, es + [e])
    ensures PlausibleRun(w, es) && Plausible(Run(w, es), e)
    decreases |es|
  {
    if es == [] {
      assert [e][0] == e && es + [e] == [e];
    } else {
      assert (es + [e])[1..] == es[1..] + [e];
      PlausiblePrefix(Next(w, es[0]), es[1..], e);
    }
  }

  /** So a job of any run is expired after 39 failed runs that were each rescheduled after their due time. */
  lemma JobExpiresAfter39Failures(w: World, es: seq<Event>, j: nat, created: int)
    requires Inv(w) && PlausibleRun(w, es) && j < |w.jobs| && w.jobs[j].row == CreateRow(created) && NeverSucceeds(es, j)
    requires AfterDue(CreateRow(created), FailedRunTimes(w, es, j)) && |FailedRunTimes(w, es, j)| > MAX_RETRIES
    ensures j < |Run(w, es).jobs| && Run(w, es).jobs[j].row.status.Expired?
  {
    JobFollowsSchedule(w, es, j);
    ExpiresAfter39Failures(created, FailedRunTimes(w, es, j));
  }

  // ---------------------------------------------------------------- the bound is met

  /** The same run with, `ms` milliseconds later, a run of job j that fails. */
  function ThenFails(es: seq<Event>, j: nat, ms: nat): seq<Event> {
    es + [Tick(ms)] + [FailingRetry(j)]
  }

  function FailingRetry(j: nat): Event {
    Retry(j, Declined({}, false), false, Completed)
  }

  lemma {:induction false} PlausibleAppended(w: World, es: seq<Event>, e: Event)
    requires PlausibleRun(w, es) && Plausible(Run(w, es), e)
    ensures PlausibleRun(w, es + [e])
    decreases |es|
  {
    if es == [] {
      assert es + [e] == [e] && [e][1..] == [];
    } else {
      assert (es + [e])[1..] == es[1..] + [e];
      PlausibleAppended(Next(w, es[0]), es[1..], e);
    }
  }

  /** A state of a run at time `now`, with a row of job j. */
  ghost predicate JobAt(w: World, j: nat, row: JobRow, now: int) {
    Inv(w) && w.now == now && j < |w.jobs| && w.jobs[j].row == row
  }

  /** A run up to time `now` in which job j failed at the given times and after which its row is as given. */
  ghost predicate FailedAt(w: World, es: seq<Event>, j: nat, times: seq<int>, row: JobRow, now: int) {
    PlausibleRun(w, es) && NeverSucceeds(es, j) && FailedRunTimes(w, es, j) == times && JobAt(Run(w, es), j, row, now)
  }

  /** The row of a job after n failures, each rescheduled after its due time and the last one by `now`. */
  ghost predicate OnSchedule(start: int, times: seq<int>, n: nat, row: JobRow, now: int) {
    Promptly(start, times, n) && row == AfterFailedRuns(CreateRow(start), times) && now <= row.nextRetryAt + 1
  }

  lemma FailedRunTimesSnoc(w: World, es: seq<Event>, e: Event, j: nat)
    ensures var before := Run(w, es);
            FailedRunTimes(w, es + [e], j) == FailedRunTimes(w, es, j) +
            if FailsJob(before, e, j) then [before.now] else []
  {
    assert (es + [e])[..|es + [e]| - 1] == es;
  }

  lemma FailureCounts(w: World, es: seq<Event>, j: nat, ms: nat)
    requires j < |Run(w, es).jobs| && Active(Run(w, es).jobs[j])
    ensures FailedRunTimes(w, ThenFails(es, j, ms), j) == FailedRunTimes(w, es, j) + [Run(w, es).now + ms]
  {
    FailedRunTimesSnoc(w, es, Tick(ms), j);
    FailedRunTimesSnoc(w, es + [Tick(ms)], FailingRetry(j), j);
    RunOfSnoc(w, es, Tick(ms));
  }

  lemma ThenFailsIs(w: World, es: seq<Event>, j: nat, ms: nat)
    ensures Run(w, ThenFails(es, j, ms)) == Next(Next(Run(w, es), Tick(ms)), FailingRetry(j))
  {
    RunOfSnoc(w, es, Tick(ms));
    RunOfSnoc(w, es + [Tick(ms)], FailingRetry(j));
  }

  lemma ThenFailsIsPlausible(w: World, es: seq<Event>, j: nat, ms: nat)
    requires PlausibleRun(w, es) && NeverSucceeds(es, j)
    ensures PlausibleRun(w, ThenFails(es, j, ms)) && NeverSucceeds(ThenFails(es, j, ms), j)
  {
    PlausibleAppended(w, es, Tick(ms));
    PlausibleAppended(w, es + [Tick(ms)], FailingRetry(j));
  }

  lemma FailureReschedules(w: World, j: nat, row: JobRow, now: int, ms: nat)
    requires JobAt(w, j, row, now) && row.status.Pending?
    ensures JobAt(Next(Next(w, Tick(ms)), FailingRetry(j)), j, AfterFailedRun(row, now + ms), now + ms)
  {
    NextKeepsInv(w, Tick(ms));
    NextKeepsInv(Next(w, Tick(ms)), FailingRetry(j));
    RunLeavesRow(Next(w, Tick(ms)), j, Declined({}, false), false, Completed);
  }

  /** What the schedule makes of one more failure, one millisecond after the due time. */
  lemma OneMoreOnSchedule(start: int, times: seq<int>, n: nat, row: JobRow, now: int)
    requires OnSchedule(start, times, n, row, now) && n < MAX_RETRIES
    ensures row.status.Pending? && now <= row.nextRetryAt + 1
    ensures OnSchedule(start, times + [row.nextRetryAt + 1], n + 1, AfterFailedRun(row, row.nextRetryAt + 1), row.nextRetryAt + 1)
  {
    OnePromptFailure(start, times, n);
    FailuresSnoc(CreateRow(start), times, row.nextRetryAt + 1);
    DueTimeNeverDecreases(start, times, row.nextRetryAt + 1);
  }

  lemma ThenFailsReschedules(w: World, es: seq<Event>, j: nat, row: JobRow, now: int, ms: nat)
    requires JobAt(Run(w, es), j, row, now) && row.status.Pending?
    ensures JobAt(Run(w, ThenFails(es, j, ms)), j, AfterFailedRun(row, now + ms), now + ms)
  {
    ThenFailsIs(w, es, j, ms);
    FailureReschedules(Run(w, es), j, row, now, ms);
  }

  lemma OneMoreFailure(w: World, es: seq<Event>, j: nat, times: seq<int>, row: JobRow, now: int, ms: nat)
    requires FailedAt(w, es, j, times, row, now) && row.status.Pending?
    ensures FailedAt(w, ThenFails(es, j, ms), j, times + [now + ms], AfterFailedRun(row, now + ms), now + ms)
  {
    FailureCounts(w, es, j, ms);
    ThenFailsReschedules(w, es, j, row, now, ms);
    ThenFailsIsPlausible(w, es, j, ms);
  }

  lemma NothingFailedYet(w: World, j: nat)
    requires JobAt(w, j, CreateRow(w.now), w.now)
    ensures FailedAt(w, [], j, [], CreateRow(w.now), w.now) && OnSchedule(w.now, [], 0, CreateRow(w.now), w.now)
  {}

  /** n failures of a new job, each one millisecond after it was due. */
  lemma {:induction false} PromptFailures(w: World, j: nat, n: nat) returns (es: seq<Event>, times: seq<int>, row: JobRow, now: int)
    requires JobAt(w, j, CreateRow(w.now), w.now) && n <= MAX_RETRIES
    ensures FailedAt(w, es, j, times, row, now) && OnSchedule(w.now, times, n, row, now)
  {
    if n == 0 {
      es, times, row, now := [], [], CreateRow(w.now), w.now;
      NothingFailedYet(w, j);
    } else {
      es, times, row, now := PromptFailures(w, j, n - 1);
      OneMoreOnSchedule(w.now, times, n - 1, row, now);
      OneMoreFailure(w, es, j, times, row, now, row.nextRetryAt + 1 - now);
      es := ThenFails(es, j, row.nextRetryAt + 1 - now);
      now := row.nextRetryAt + 1;
      times, row := times + [now], AfterFailedRun(row, now);
    }
  }

  /** A new job of any state survives 38 runs that fail, each rescheduled after its due time. */
  lemma NewJobSurvives38Failures(w: World, j: nat) returns (es: seq<Event>)
    requires Inv(w) && j < |w.jobs| && w.jobs[j].row == CreateRow(w.now)
    ensures PlausibleRun(w, es) && NeverSucceeds(es, j)
    ensures |FailedRunTimes(w, es, j)| == MAX_RETRIES && AfterDue(CreateRow(w.now), FailedRunTimes(w, es, j))
    ensures j < |Run(w, es).jobs| && Active(Run(w, es).jobs[j])
  {
    var times, row, now;
    es, times, row, now := PromptFailures(w, j, MAX_RETRIES);
  }

  // ---------------------------------------------------------------- failed bets are in jobs

  ghost predicate InSomeJob(jobs: seq<Job>, t: TxId) {
    exists i :: 0 <= i < |jobs| && t in JobTxs(jobs[i])
  }

  /** Every bet marked failed is in some retry job. */
  ghost predicate FailedCovered(w: World) {
    forall t :: t in w.bets && w.bets[t].status.SettlementFailed? ==> InSomeJob(w.jobs, t)
  }

  predicate FailureIsLogged(e: Event) {
    (e.BetRequest? || e.StepRequest? || e.CashOutRequest? || e.NextBatch? || e.Retry?) && Failing(e.answer) ==> e.answer.logged
  }

  /** A failing batch whose job is suppressed by an active one under the same first bet, which does not hold all of it. */
  ghost predicate Orphans(w: World, e: Event) {
    && SendsBatch(w, e) && Failing(e.answer) && w.pass[0] != []
    && HasActiveJob(w.jobs, w.pass[0][0].txId, RefundJob([]))
    && exists b :: b in w.pass[0] && !InSomeJob(w.jobs, b.txId)
  }

  /** Jobs are never lost, so a bet in one stays in one. */
  lemma StaysInJob(w: World, e: Event, t: TxId)
    requires Inv(w) && InSomeJob(w.jobs, t)
    ensures InSomeJob(Next(w, e).jobs, t)
  {
    var i :| 0 <= i < |w.jobs| && t in JobTxs(w.jobs[i]);
    JobChangesOnlyByItsRuns(w, e, i);
    assert JobTxs(Next(w, e).jobs[i]) == JobTxs(w.jobs[i]);
  }

  lemma SettleSessionCovers(w: World, key: string, tx: TxId, winAmount: real, answer: Answer)
    requires Failing(answer) ==> answer.logged
    ensures var w' := SettleSession(w, key, tx, winAmount, answer);
            && (forall t :: t in w'.bets && w'.bets[t].status.SettlementFailed? ==>
                  t in w.bets && (w.bets[t].status.SettlementFailed? || (t == tx && InSomeJob(w'.jobs, t))))
  {
    var stored := StoredWin(winAmount);
    SettleFailureLeavesJob(w, tx, winAmount, stored, answer);
    var jobs := CallSettle(w, tx, winAmount, stored, answer).jobs;
    if Failing(answer) {
      var i :| 0 <= i < |jobs| && jobs[i].tx == tx && SameAction(jobs[i].kind, SettleJob(stored)) && Active(jobs[i]);
      assert tx in JobTxs(jobs[i]);
    }
  }

  lemma SettlePathsCover(w: World, e: Event)
    requires Inv(w) && FailedCovered(w) && (e.StepRequest? || e.CashOutRequest?) && FailureIsLogged(e)
    ensures FailedCovered(Next(w, e))
  {
    if e.key in w.sessions && w.sessions[e.key].isActive {
      var s := w.sessions[e.key];
      if e.CashOutRequest? {
        SettleSessionCovers(w.(sessions := w.sessions[e.key := CloseForCashOut(s)]), e.key, s.txId, s.winAmount, e.answer);
      } else {
        match TakeStep(s, e.lineNumber, e.hazards)
        case Ended(s', amount) =>
          var saved := w.(sessions := w.sessions[e.key := s'], games := Recorded(w.games, s.txId, s'));
          SettleSessionCovers(saved, e.key, s.txId, amount, e.answer);
        case _ =>
      }
    }
    forall t | t in w.bets && w.bets[t].status.SettlementFailed? ensures InSomeJob(Next(w, e).jobs, t) {
      StaysInJob(w, e, t);
    }
  }

  /** The rows and the jobs a failing batch leaves. */
  lemma FailedBatchLeaves(w: World, e: Event)
    requires Inv(w) && SendsBatch(w, e) && Failing(e.answer) && e.answer.logged
    ensures w.pass[0] != [] && Next(w, e).bets == WithStatus(w.bets, TxIds(w.pass[0]), SettlementFailed)
    ensures var first, txns := w.pass[0][0].txId, RefundTxns(w.pass[0]);
            Next(w, e).jobs == if HasActiveJob(w.jobs, first, RefundJob([])) then w.jobs else w.jobs + [NewJob(first, RefundJob(txns), w.now)]
  {
    assert BatchKnown(w.bets, w.pass[0]);
    RefundTxnIds(w.pass[0]);
    RefundFailureLeavesJob(w.(pass := w.pass[1..]), RefundTxns(w.pass[0]), e.answer);
    assert HasActiveJob(w.jobs, w.pass[0][0].txId, RefundJob([])) <==> HasActiveJob(w.jobs, w.pass[0][0].txId, RefundJob(RefundTxns(w.pass[0])));
  }

  lemma FailedBatchCoversIff(w: World, e: Event)
    requires Inv(w) && FailedCovered(w) && SendsBatch(w, e) && Failing(e.answer) && e.answer.logged
    ensures FailedCovered(Next(w, e)) <==> !Orphans(w, e)
  {
    var batch, w' := w.pass[0], Next(w, e);
    FailedBatchLeaves(w, e);
    RefundTxnIds(batch);
    assert BatchKnown(w.bets, batch);
    if HasActiveJob(w.jobs, batch[0].txId, RefundJob([])) {
      if b :| b in batch && !InSomeJob(w.jobs, b.txId) {
        assert b.txId in TxIds(batch) && w'.bets[b.txId].status.SettlementFailed?;
      }
    } else {
      forall t | t in w'.bets && w'.bets[t].status.SettlementFailed? ensures InSomeJob(w'.jobs, t) {
        if t in TxIds(batch) {
          assert t in JobTxs(w'.jobs[|w.jobs|]);
        } else {
          StaysInJob(w, e, t);
        }
      }
    }
  }

  lemma RetryFailsItsOwn(w: World, e: Event, t: TxId)
    requires Inv(w) && e.Retry? && t in Next(w, e).bets && Next(w, e).bets[t].status.SettlementFailed?
    ensures (t in w.bets && w.bets[t].status.SettlementFailed?) || InSomeJob(w.jobs, t)
  {
    if e.job < |w.jobs| && Active(w.jobs[e.job]) && !e.end.DiesBeforeCall? {
      assert JobSent(w.wallet, w.jobs[e.job]);
      CallAgainRepeats(w.(jobs := WithJobStatus(w.jobs, e.job, Processing)), w.jobs[e.job], e.answer);
      assert t in JobTxs(w.jobs[e.job]) || (t in w.bets && w.bets[t].status.SettlementFailed?);
    }
  }

  lemma RetryCovers(w: World, e: Event)
    requires Inv(w) && FailedCovered(w) && e.Retry?
    ensures FailedCovered(Next(w, e))
  {
    forall t | t in Next(w, e).bets && Next(w, e).bets[t].status.SettlementFailed? ensures InSomeJob(Next(w, e).jobs, t) {
      RetryFailsItsOwn(w, e, t);
      StaysInJob(w, e, t);
    }
  }

  /** A step whose failure is logged leaves every failed bet in a job exactly when it orphans none in the sense above. */
  lemma StepCoversIff(w: World, e: Event)
    requires Inv(w) && FailedCovered(w) && Plausible(w, e) && FailureIsLogged(e)
    ensures FailedCovered(Next(w, e)) <==> !Orphans(w, e)
  {
    match e
    case BetRequest(_, _, _, _, _, _) => PlaceBetOnlyAdds(w, e);
    case StepRequest(_, _, _, _) => SettlePathsCover(w, e);
    case CashOutRequest(_, _) => SettlePathsCover(w, e);
    case NextBatch(answer) =>
      if SendsBatch(w, e) && Failing(answer) {
        FailedBatchCoversIff(w, e);
      } else if w.pass != [] {
        UnfailedBatchCovers(w, e);
      }
    case Retry(_, _, _, _) => RetryCovers(w, e);
    case _ =>
  }

  lemma UnfailedBatchCovers(w: World, e: Event)
    requires Inv(w) && FailedCovered(w) && e.NextBatch? && w.pass != [] && !(SendsBatch(w, e) && Failing(e.answer))
    ensures FailedCovered(Next(w, e))
  {
    assert BatchKnown(w.bets, w.pass[0]);
    RefundTxnIds(w.pass[0]);
    RefundFailureLeavesJob(w.(pass := w.pass[1..]), RefundTxns(w.pass[0]), e.answer);
  }

  ghost predicate NeverOrphans(w: World, es: seq<Event>)
    decreases |es|
  {
    es == [] || (!Orphans(w, es[0]) && NeverOrphans(Next(w, es[0]), es[1..]))
  }

  ghost predicate CoveredThroughout(w: World, es: seq<Event>)
    decreases |es|
  {
    es == [] || (FailedCovered(Next(w, es[0])) && CoveredThroughout(Next(w, es[0]), es[1..]))
  }

  /** Over every run whose failures are all logged, each bet marked failed is in a retry job throughout, exactly when no such batch is sent. */
  lemma {:induction false} FailedBetsAreInJobsIff(w: World, es: seq<Event>)
    requires Inv(w) && FailedCovered(w) && PlausibleRun(w, es)
    requires forall i :: 0 <= i < |es| ==> FailureIsLogged(es[i])
    ensures CoveredThroughout(w, es) <==> NeverOrphans(w, es)
    ensures NeverOrphans(w, es) ==> FailedCovered(Run(w, es))
    decreases |es|
  {
    if es != [] {
      assert FailureIsLogged(es[0]);
      NextKeepsInv(w, es[0]);
      StepCoversIff(w, es[0]);
      if !Orphans(w, es[0]) {
        FailedBetsAreInJobsIff(Next(w, es[0]), es[1..]);
      }
    }
  }

  /** Runs that send only fresh batches have no such batch: their bets are in no job yet. */
  lemma {:induction false} FreshRunNeverOrphans(w: World, es: seq<Event>)
    requires Inv(w) && PlausibleRun(w, es) && SendsOnlyFresh(w, es)
    ensures NeverOrphans(w, es)
    decreases |es|
  {
    if es != [] {
      if Orphans(w, es[0]) {
        var first := w.pass[0][0];
        var i :| 0 <= i < |w.jobs| && w.jobs[i].tx == first.txId && SameAction(w.jobs[i].kind, RefundJob([])) && Active(w.jobs[i]);
        assert BatchKnown(w.bets, w.pass[0]) && first in w.pass[0];
        assert JobSent(w.wallet, w.jobs[i]);
        JobTxsSent(w, w.jobs[i]);
        assert false;
      }
      NextKeepsInv(w, es[0]);
      FreshRunNeverOrphans(Next(w, es[0]), es[1..]);
    }
  }
}
