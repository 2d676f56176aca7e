/** The services that move money, as the source writes them: each flow updates the stores in place, step by step. */
module Backend {
  import opened Common
  import opened GameSession
  import opened Bets
  import opened RefundBatches
  import opened Protocol
  import opened ProtocolPass
  import opened RetrySchedule

  /** The retry-job table (wallet-retry-job.service.ts). */
  class RetryJobService {
    var jobs: seq<Job>

    constructor ()
      ensures jobs == []
    {
      jobs := [];
    }

    /** Looks for an active job of the same transaction and action before creating one. */
    method CreateRetryJob(tx: TxId, kind: JobKind, now: int)
      modifies this
      ensures jobs == Enqueue(old(jobs), tx, kind, now)
    {
      var i := 0;
      while i < |jobs|
        invariant 0 <= i <= |jobs|
        invariant forall k :: 0 <= k < i ==> !(jobs[k].tx == tx && SameAction(jobs[k].kind, kind) && Active(jobs[k]))
      {
        if jobs[i].tx == tx && SameAction(jobs[i].kind, kind) && Active(jobs[i]) {
          return;
        }
        i := i + 1;
      }
      var first := CalculateNextRetryTime(1, now, now);
      jobs := jobs + [Job(tx, kind, JobRow(Pending, 0, first.value, now))];
    }

    method UpdateStatus(j: nat, status: JobStatus)
      requires j < |jobs|
      modifies this
      ensures jobs == WithJobStatus(old(jobs), j, status)
    {
      var job := jobs[j];
      job := job.(row := job.row.(status := status));
      jobs := jobs[j := job];
    }

    /** The failure branch of a run: the next slot, or the end of the job. */
    method RescheduleAfterFailure(j: nat, now: int)
      requires j < |jobs|
      modifies this
      ensures jobs == WithJobRow(old(jobs), j, AfterFailedRun(old(jobs)[j].row, now))
    {
      var row := jobs[j].row;
      var nextAttempt := row.retryAttempt + 1;
      var next := CalculateNextRetryTime(nextAttempt, row.initialFailureAt, now);
      if next.Some? {
        row := row.(status := Pending, retryAttempt := nextAttempt, nextRetryAt := next.value);
      } else {
        row := row.(status := Expired);
      }
      jobs := jobs[j := jobs[j].(row := row)];
    }
  }

  /** The wallet agent at the other end of the HTTP calls, with the requests it was sent and the amounts it applied. */
  class WalletAgent {
    var book: Wallet

    constructor ()
      ensures book == Init().wallet
    {
      book := Wallet({}, {}, map[], map[], map[]);
    }

    method Bet(tx: TxId, amount: real, answer: Answer)
      modifies this
      ensures book == old(book).(debits := Apply(old(book).debits, map[tx := amount], AppliedTo(answer, {tx})))
    {
      book := book.(debits := Apply(book.debits, map[tx := amount], AppliedTo(answer, {tx})));
    }

    method Settle(tx: TxId, winAmount: real, answer: Answer)
      modifies this
      ensures book == old(book).(settleSent := old(book).settleSent + {tx},
                                 credits := Apply(old(book).credits, map[tx := winAmount], AppliedTo(answer, {tx})))
    {
      book := book.(settleSent := book.settleSent + {tx});
      book := book.(credits := Apply(book.credits, map[tx := winAmount], AppliedTo(answer, {tx})));
    }

    method CancelBet(txns: seq<RefundTxn>, answer: Answer)
      modifies this
      ensures book == old(book).(cancelSent := old(book).cancelSent + TxnIds(txns),
                                 refunds := Apply(old(book).refunds, Amounts(txns), AppliedTo(answer, TxnIds(txns))))
    {
      book := book.(cancelSent := book.cancelSent + TxnIds(txns));
      book := book.(refunds := Apply(book.refunds, Amounts(txns), AppliedTo(answer, TxnIds(txns))));
    }
  }

  class Server {
    var sessions: map<string, Session>
    const bets: BetService
    const jobs: RetryJobService
    const agent: WalletAgent
    var now: int
    ghost var games: map<TxId, GameRecord>

    constructor ()
      ensures World() == Init()
      ensures fresh(bets) && fresh(jobs) && fresh(agent)
    {
      sessions, now, games := map[], 0, map[];
      bets := new BetService();
      jobs := new RetryJobService();
      agent := new WalletAgent();
    }

    ghost function World(): World
      reads this, bets, jobs, agent
    {
      Protocol.World(sessions, bets.rows, jobs.jobs, agent.book, [], games, now)
    }

    // -------------------------------------------------------------- single-wallet-functions.service.ts

    /** The catch branch of a failed settle call: the audit record, the retry job, the failed mark. */
    method BookSettleFailure(tx: TxId, winAmount: real, logged: bool)
      modifies jobs, bets
      ensures jobs.jobs == if logged then Enqueue(old(jobs.jobs), tx, SettleJob(StoredWin(winAmount)), now) else old(jobs.jobs)
      ensures bets.rows == WithStatus(old(bets.rows), {tx}, SettlementFailed)
    {
      if logged {
        jobs.CreateRetryJob(tx, SettleJob(StoredWin(winAmount)), now);
      }
      var found := bets.MarkSettlementFailed(tx);
    }

    method SettleBet(tx: TxId, winAmount: real, answer: Answer) returns (accepted: bool)
      modifies jobs, bets, agent
      ensures World() == CallSettle(old(World()), tx, winAmount, StoredWin(winAmount), answer)
      ensures accepted == answer.Accepted?
    {
      if answer.NotSent? {
        return false;
      }
      agent.Settle(tx, winAmount, answer);
      match answer {
        case Accepted =>
          return true;
        case Declined(_, logged) =>
          BookSettleFailure(tx, winAmount, logged);
          // the exception thrown for the rejection is caught by the same try and booked again
          BookSettleFailure(tx, winAmount, logged);
          MarkingTwice(old(bets.rows), {tx});
          return false;
        case Lost(_, logged) =>
          BookSettleFailure(tx, winAmount, logged);
          return false;
      }
    }

    lemma MarkingTwice(rows: BetTable, txs: set<TxId>)
      ensures WithStatus(WithStatus(rows, txs, SettlementFailed), txs, SettlementFailed) == WithStatus(rows, txs, SettlementFailed)
    {}

    lemma MarkingOneMore(rows: BetTable, txs: set<TxId>, tx: TxId, status: BetStatus)
      ensures WithStatus(WithStatus(rows, txs, status), {tx}, status) == WithStatus(rows, txs + {tx}, status)
    {}

    method BookRefundFailure(txns: seq<RefundTxn>, logged: bool)
      requires txns != []
      modifies jobs, bets
      ensures jobs.jobs == if logged then Enqueue(old(jobs.jobs), txns[0].tx, RefundJob(txns), now) else old(jobs.jobs)
      ensures bets.rows == WithStatus(old(bets.rows), TxnIds(txns), SettlementFailed)
    {
      if logged {
        jobs.CreateRetryJob(txns[0].tx, RefundJob(txns), now);
      }
      var i := 0;
      assert WithStatus(old(bets.rows), TxnIds(txns[..0]), SettlementFailed) == old(bets.rows);
      while i < |txns|
        invariant 0 <= i <= |txns|
        invariant bets.rows == WithStatus(old(bets.rows), TxnIds(txns[..i]), SettlementFailed)
        invariant jobs.jobs == if logged then Enqueue(old(jobs.jobs), txns[0].tx, RefundJob(txns), now) else old(jobs.jobs)
      {
        var found := bets.MarkSettlementFailed(txns[i].tx);
        MarkingOneMore(old(bets.rows), TxnIds(txns[..i]), txns[i].tx, SettlementFailed);
        assert TxnIds(txns[..i + 1]) == TxnIds(txns[..i]) + {txns[i].tx} by {
          assert txns[..i + 1] == txns[..i] + [txns[i]];
        }
        i := i + 1;
      }
      assert txns[..i] == txns;
    }

    method RefundBet(txns: seq<RefundTxn>, answer: Answer) returns (accepted: bool)
      requires txns != []
      modifies jobs, bets, agent
      ensures World() == CallRefund(old(World()), txns, answer)
      ensures accepted == answer.Accepted?
    {
      if answer.NotSent? {
        return false;
      }
      agent.CancelBet(txns, answer);
      match answer {
        case Accepted =>
          return true;
        case Declined(_, logged) =>
          BookRefundFailure(txns, logged);
          BookRefundFailure(txns, logged);
          MarkingTwice(old(bets.rows), TxnIds(txns));
          return false;
        case Lost(_, logged) =>
          BookRefundFailure(txns, logged);
          return false;
      }
    }

    // -------------------------------------------------------------- game-play.service.ts

    method PerformBetFlow(gameCode: string, row: Bet, amount: real, coefficients: seq<real>, gameActive: bool, answer: Answer)
      modifies this, bets, agent
      ensures World() == PlaceBet(old(World()), gameCode, row, amount, coefficients, gameActive, answer)
    {
      var key := SessionKey(row.userId, row.operatorId, gameCode);
      if key in sessions {
        var existing := sessions[key];
        if existing.isActive {
          return;
        }
      }
      if amount <= 0.0 {
        return;
      }
      agent.Bet(row.txId, amount, answer);
      if answer != Accepted {
        return;
      }
      var created := bets.CreatePlacement(row.(betAmount := Fixed3(amount), status := Placed, winAmount := None), gameActive);
      if !created {
        return;
      }
      games := games[row.txId := GameRecord(amount, coefficients, 0, false)];
      if |coefficients| == 0 {
        return;
      }
      var session := Session(row.operatorId, row.txId, amount, coefficients, INITIAL_STEP, amount, true, false, None);
      sessions := sessions[key := session];
    }

    /** The settlement at the end of a step or a cash-out. */
    method SettleFinished(key: string, tx: TxId, winAmount: real, answer: Answer)
      modifies this, bets, jobs, agent
      ensures World() == SettleSession(old(World()), key, tx, winAmount, answer)
    {
      var accepted := SettleBet(tx, winAmount, answer);
      if !accepted {
        return;
      }
      var found := bets.RecordSettlement(tx, Some(Fixed3(winAmount)));
      if !found {
        return;
      }
      sessions := sessions - {key};
    }

    method PerformStepFlow(key: string, lineNumber: int, hazards: seq<int>, answer: Answer)
      modifies this, bets, jobs, agent
      ensures World() == StepFlow(old(World()), key, lineNumber, hazards, answer)
    {
      if key !in sessions {
        return;
      }
      var session := sessions[key];
      if !session.isActive || |session.coefficients| == 0 || session.currentStep < INITIAL_STEP {
        return;
      }
      var totalColumns := |session.coefficients|;
      if lineNumber != session.currentStep + 1 {
        return;
      }
      var ended := false;
      if lineNumber == totalColumns - 1 {
        session := session.(currentStep := lineNumber);
        session := session.(winAmount := session.betAmount * session.coefficients[session.currentStep]);
        session := session.(isActive := false, isWin := true);
        ended := true;
      } else if lineNumber in hazards {
        session := session.(isActive := false, isWin := false, winAmount := 0.0);
        session := session.(collisionColumns := Some(hazards), currentStep := lineNumber);
        ended := true;
      } else if lineNumber < totalColumns {
        session := session.(currentStep := lineNumber);
        session := session.(winAmount := session.betAmount * session.coefficients[session.currentStep]);
      } else {
        return;
      }
      sessions := sessions[key := session];
      games := Recorded(games, session.txId, session);
      assert TakeStep(old(sessions)[key], lineNumber, hazards) == if ended then Ended(session, session.winAmount) else Advanced(session);
      assert World() == old(World()).(sessions := sessions, games := games);
      if ended {
        SettleFinished(key, session.txId, session.winAmount, answer);
      }
    }

    method PerformCashOutFlow(key: string, answer: Answer)
      modifies this, bets, jobs, agent
      ensures World() == CashOutFlow(old(World()), key, answer)
    {
      if key !in sessions {
        return;
      }
      var session := sessions[key];
      if !session.isActive {
        return;
      }
      session := session.(isActive := false);
      session := session.(isWin := true);
      sessions := sessions[key := session];
      SettleFinished(key, session.txId, session.winAmount, answer);
    }

    /** The flush that follows any client's disconnect. */
    method CleanupOnDisconnect()
      modifies this
      ensures World() == Next(old(World()), Flush)
    {
      sessions := map[];
    }

    // -------------------------------------------------------------- refund-scheduler.service.ts

    /** Looks up the session of each bet of the batch in turn. */
    method FindSessionInBatch(batch: seq<Bet>) returns (found: bool)
      ensures found == BatchIsSkipped(sessions, batch)
    {
      var i := 0;
      while i < |batch|
        invariant 0 <= i <= |batch|
        invariant forall k :: 0 <= k < i ==> !SessionExistsForBet(sessions, batch[k])
      {
        if SessionExistsForBet(sessions, batch[i]) {
          return true;
        }
        i := i + 1;
      }
      return false;
    }

    /** Marks the bets of a refunded batch one by one. */
    method MarkRefunded(batch: seq<Bet>)
      modifies bets
      ensures bets.rows == WithStatus(old(bets.rows), TxIds(batch), Refunded)
    {
      assert WithStatus(bets.rows, TxIds(batch[..0]), Refunded) == bets.rows;
      var i := 0;
      while i < |batch|
        invariant 0 <= i <= |batch|
        invariant bets.rows == WithStatus(old(bets.rows), TxIds(batch[..i]), Refunded)
      {
        var found := bets.UpdateStatus(batch[i].txId, Refunded);
        MarkingOneMore(old(bets.rows), TxIds(batch[..i]), batch[i].txId, Refunded);
        assert TxIds(batch[..i + 1]) == TxIds(batch[..i]) + {batch[i].txId} by {
          assert batch[..i + 1] == batch[..i] + [batch[i]];
        }
        i := i + 1;
      }
      assert batch[..i] == batch;
    }

    /** The body of the innermost loop of a pass. */
    method RefundOneBatch(batch: seq<Bet>, answer: Answer) returns (outcome: BatchOutcome)
      requires batch != []
      modifies bets, jobs, agent
      ensures World() == RefundBatch(old(World()), batch, answer)
      ensures outcome == OutcomeOf(old(World()), batch, answer)
    {
      var inPlay := FindSessionInBatch(batch);
      if inPlay {
        return Skipped;
      }
      var accepted := RefundBet(RefundTxns(batch), answer);
      if !accepted {
        return BatchFailed;
      }
      MarkRefunded(batch);
      return BatchDone;
    }

    /** The three counters tally the batches handled so far. */
    ghost predicate Counted(w: World, handled: seq<seq<Bet>>, answers: seq<Answer>, success: nat, failure: nat, skipped: nat) {
      && success == Tally(handled, OutcomesOf(w, handled, answers), BatchDone)
      && failure == Tally(handled, OutcomesOf(w, handled, answers), BatchFailed)
      && skipped == Tally(handled, OutcomesOf(w, handled, answers), Skipped)
    }

    lemma CountedStep(w: World, handled: seq<seq<Bet>>, batch: seq<Bet>, answers: seq<Answer>, outcome: BatchOutcome,
                      success: nat, failure: nat, skipped: nat)
      requires Counted(w, handled, answers, success, failure, skipped)
      requires outcome == OutcomeOf(AfterBatches(w, handled, answers), batch, AnswerAt(answers, |handled|))
      ensures Counted(w, handled + [batch], answers,
                      success + (if outcome.BatchDone? then |batch| else 0),
                      failure + (if outcome.BatchFailed? then |batch| else 0),
                      skipped + (if outcome.Skipped? then |batch| else 0))
    {
      assert (handled + [batch])[..|handled|] == handled;
      assert OutcomesOf(w, handled + [batch], answers) == OutcomesOf(w, handled, answers) + [outcome];
      TallyStep(handled, OutcomesOf(w, handled, answers), batch, outcome, BatchDone);
      TallyStep(handled, OutcomesOf(w, handled, answers), batch, outcome, BatchFailed);
      TallyStep(handled, OutcomesOf(w, handled, answers), batch, outcome, Skipped);
    }

    /** One turn of the inner loop: refund a batch and count it under its outcome. */
    method RefundAndCount(batch: seq<Bet>, answers: seq<Answer>, n: nat, success0: nat, failure0: nat, skipped0: nat,
                          ghost w: World, ghost handled: seq<seq<Bet>>)
      returns (success: nat, failure: nat, skipped: nat)
      requires batch != [] && n == |handled| && World() == AfterBatches(w, handled, answers)
      requires Counted(w, handled, answers, success0, failure0, skipped0)
      modifies bets, jobs, agent
      ensures World() == AfterBatches(w, handled + [batch], answers)
      ensures Counted(w, handled + [batch], answers, success, failure, skipped)
    {
      success, failure, skipped := success0, failure0, skipped0;
      var outcome := RefundOneBatch(batch, AnswerAt(answers, n));
      match outcome {
        case Skipped => skipped := skipped + |batch|;
        case BatchDone => success := success + |batch|;
        case BatchFailed => failure := failure + |batch|;
      }
      CountedStep(w, handled, batch, answers, outcome, success0, failure0, skipped0);
      assert (handled + [batch])[..n] == handled;
    }

    /** The loop over the batches of one group, which goes on counting from where the previous group stopped. */
    method RefundGroup(group: seq<Bet>, answers: seq<Answer>, count: nat, success0: nat, failure0: nat, skipped0: nat,
                       ghost w: World, ghost before: seq<seq<Bet>>)
      returns (n: nat, success: nat, failure: nat, skipped: nat)
      requires count == |before| && World() == AfterBatches(w, before, answers)
      requires Counted(w, before, answers, success0, failure0, skipped0)
      modifies bets, jobs, agent
      ensures n == |before + Chunks(group)| && World() == AfterBatches(w, before + Chunks(group), answers)
      ensures Counted(w, before + Chunks(group), answers, success, failure, skipped)
    {
      n, success, failure, skipped := count, success0, failure0, skipped0;
      ghost var handled := before;
      var i := 0;
      LoopStarts(before, group);
      while i < |group|
        invariant 0 <= i && n == |handled| && LoopAt(before, handled, group, i)
        invariant World() == AfterBatches(w, handled, answers)
        invariant Counted(w, handled, answers, success, failure, skipped)
      {
        success, failure, skipped := RefundAndCount(Slice(group, i), answers, n, success, failure, skipped, w, handled);
        LoopSteps(before, handled, group, i);
        handled := handled + [Slice(group, i)];
        n := n + 1;
        i := i + BATCH_SIZE;
      }
      LoopEnds(before, handled, group, i);
    }

    /** A whole refund pass: the query, the grouping, and the batches of each group in turn. */
    method ProcessRefunds(threshold: int, answers: seq<Answer>)
      returns (listed: seq<Bet>, success: nat, failure: nat, skipped: nat)
      requires Keyed(bets.rows)
      modifies bets, jobs, agent
      ensures ListsOldPlaced(listed, old(bets.rows), threshold)
      ensures World() == AfterBatches(old(World()), Batches(listed), answers)
      ensures Counted(old(World()), Batches(listed), answers, success, failure, skipped)
      ensures success + failure + skipped == |listed|
      ensures success == |TurnedRefunded(old(bets.rows), bets.rows)|
    {
      ghost var w := World();
      listed := bets.FindOldPlacedBets(threshold);
      success, failure, skipped := 0, 0, 0;
      var keys, groups := GroupBets(listed);
      ghost var handled: seq<seq<Bet>> := [];
      var n, k := 0, 0;
      while k < |keys|
        invariant 0 <= k <= |keys| && handled == BatchesOf(listed, keys[..k]) && n == |handled|
        invariant World() == AfterBatches(w, handled, answers)
        invariant Counted(w, handled, answers, success, failure, skipped)
      {
        var group := groups[keys[k]];
        n, success, failure, skipped := RefundGroup(group, answers, n, success, failure, skipped, w, handled);
        BatchesOfOneMore(listed, keys, k);
        handled := handled + Chunks(group);
        k := k + 1;
      }
      assert keys[..k] == keys;
      assert handled == Batches(listed);
      CountersAddUp(listed, OutcomesOf(w, Batches(listed), answers));
      SuccessCountsRefundedRows(w, listed, threshold, answers);
    }

    // -------------------------------------------------------------- wallet-retry-processor.service.ts

    /** The wallet call of a retry. */
    method ExecuteRetry(job: Job, answer: Answer) returns (accepted: bool)
      requires job.kind.RefundJob? ==> job.kind.txns != []
      modifies bets, jobs, agent
      ensures World() == CallAgain(old(World()), job, answer)
      ensures accepted == answer.Accepted?
    {
      match job.kind {
        case SettleJob(stored) => accepted := SettleBet(job.tx, WinToSend(stored), answer);
        case RefundJob(txns) => accepted := RefundBet(txns, answer);
      }
    }

    /** The row update after an accepted retry; its failure is caught and logged. */
    method UpdateRetriedBet(job: Job, rowWritten: bool)
      modifies bets
      ensures bets.rows == RowAfterRetry(old(bets.rows), job, rowWritten)
    {
      if rowWritten {
        match job.kind {
          case SettleJob(stored) => var found := bets.RecordSettlement(job.tx, stored);
          case RefundJob(_) => var found := bets.UpdateStatus(job.tx, Refunded);
        }
      }
    }

    // -------------------------------------------------------------- wallet-retry-scheduler.service.ts

    /** The status changes before a run: a stale PROCESSING job is put back to PENDING first. */
    method StartRetryJob(j: nat) returns (started: bool)
      modifies jobs
      ensures started == (j < |old(jobs.jobs)| && Active(old(jobs.jobs)[j]))
      ensures jobs.jobs == if started then WithJobStatus(old(jobs.jobs), j, Processing) else old(jobs.jobs)
    {
      if j >= |jobs.jobs| {
        return false;
      }
      if jobs.jobs[j].row.status == Processing {
        jobs.UpdateStatus(j, Pending);
      } else if jobs.jobs[j].row.status != Pending {
        return false;
      }
      jobs.UpdateStatus(j, Processing);
      return true;
    }

    /** One run of a retry job, from the status change to PROCESSING to the status it ends with. */
    method ProcessRetryJob(j: nat, answer: Answer, rowWritten: bool, end: RunEnd)
      requires forall i :: 0 <= i < |jobs.jobs| && jobs.jobs[i].kind.RefundJob? ==> jobs.jobs[i].kind.txns != []
      modifies bets, jobs, agent
      ensures World() == RetryRun(old(World()), j, answer, rowWritten, end)
    {
      if j >= |jobs.jobs| {
        return;
      }
      var job := jobs.jobs[j];
      var started := StartRetryJob(j);
      if !started || end.DiesBeforeCall? {
        return;
      }
      ghost var begun := World();
      var accepted := ExecuteRetry(job, answer);
      assert World() == CallAgain(begun, job, answer);
      if end.DiesAfterCall? {
        return;
      }
      if accepted {
        UpdateRetriedBet(job, rowWritten);
      }
      if end.DiesAfterRow? || j >= |jobs.jobs| {
        return;
      }
      if accepted {
        jobs.UpdateStatus(j, Success);
      } else {
        jobs.RescheduleAfterFailure(j, now);
      }
    }
  }
}
