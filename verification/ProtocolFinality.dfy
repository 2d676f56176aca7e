/** WON, LOST and REFUNDED are final in every run, although the status update itself checks nothing. */
module ProtocolFinality {
  import opened Common
  import opened GameSession
  import opened Bets
  import opened RefundBatches
  import opened Protocol
  import opened ProtocolSafety
  import opened RetrySchedule

  /** An active job waits on bets that are all marked failed. */
  ghost predicate ActiveJobsWait(w: World) {
    forall i :: 0 <= i < |w.jobs| && Active(w.jobs[i]) ==> JobWaits(w.bets, w.jobs[i])
  }

  ghost predicate JobWaits(bets: BetTable, job: Job) {
    forall t :: t in JobTxs(job) ==> t in bets && bets[t].status.SettlementFailed?
  }

  /** No transaction is in two jobs. */
  ghost predicate JobsApart(jobs: seq<Job>) {
    forall i, j :: 0 <= i < j < |jobs| ==> JobTxs(jobs[i]) !! JobTxs(jobs[j])
  }

  ghost predicate FinalInv(w: World) {
    Inv(w) && ActiveJobsWait(w) && JobsApart(w.jobs)
  }

  /** The retry run does not die between the update of the bet row and that of the job. */
  predicate Tidy(e: Event) {
    e.Retry? && e.answer.Accepted? ==> !e.end.DiesAfterRow?
  }

  predicate TidyRun(es: seq<Event>) {
    forall i :: 0 <= i < |es| ==> Tidy(es[i])
  }

  /** Every won, lost or refunded row is as it was. */
  ghost predicate FinalRowsKept(a: BetTable, b: BetTable) {
    forall t :: t in a && Final(a[t].status) ==> t in b && b[t] == a[t]
  }

  // ---------------------------------------------------------------- calls on open bets

  /** A failed call on bets no job knows adds at most one job, about exactly those bets. */
  lemma FirstFailure(w: World, w': World, tx: TxId, kind: JobKind, answer: Answer, txs: set<TxId>)
    requires FinalInv(w) && Inv(w') && tx in txs && JobTxs(NewJob(tx, kind, w.now)) == txs <= w.bets.Keys
    requires forall i :: 0 <= i < |w.jobs| ==> JobTxs(w.jobs[i]) !! txs
    requires forall i :: 0 <= i < |w.jobs| ==> w.jobs[i].tx in JobTxs(w.jobs[i])
    requires w'.jobs == JobsAfter(w.jobs, answer, tx, kind, w.now)
    requires w'.bets.Keys == w.bets.Keys
    requires forall t :: t in w.bets && t !in txs ==> w'.bets[t] == w.bets[t]
    requires !answer.Accepted? && !answer.NotSent? ==> w'.bets == WithStatus(w.bets, txs, SettlementFailed)
    ensures FinalInv(w')
  {
    assert !HasActiveJob(w.jobs, tx, kind);
    var one := Enqueue(w.jobs, tx, kind, w.now);
    assert one == w.jobs + [NewJob(tx, kind, w.now)];
    assert HasActiveJob(one, tx, kind) by { assert Active(one[|w.jobs|]); }
    assert w'.jobs == w.jobs || (w'.jobs == one && !answer.Accepted? && !answer.NotSent?);
    forall i | 0 <= i < |w'.jobs| && Active(w'.jobs[i]) ensures JobWaits(w'.bets, w'.jobs[i]) {
      if i < |w.jobs| { assert JobWaits(w.bets, w.jobs[i]); }
    }
  }

  /** Bets for which nothing was sent are in no job. */
  lemma UnsentInNoJob(w: World, txs: set<TxId>)
    requires Inv(w) && txs !! w.wallet.settleSent + w.wallet.cancelSent
    ensures forall i :: 0 <= i < |w.jobs| ==> JobTxs(w.jobs[i]) !! txs
  {
    forall i | 0 <= i < |w.jobs| ensures JobTxs(w.jobs[i]) !! txs {
      assert JobSent(w.wallet, w.jobs[i]);
    }
  }

  lemma JobOwnsItsTx(w: World)
    requires Inv(w)
    ensures forall i :: 0 <= i < |w.jobs| ==> w.jobs[i].tx in JobTxs(w.jobs[i])
  {
    forall i | 0 <= i < |w.jobs| ensures w.jobs[i].tx in JobTxs(w.jobs[i]) {
      assert JobSent(w.wallet, w.jobs[i]);
      match w.jobs[i].kind
      case SettleJob(_) =>
      case RefundJob(txns) => assert txns[0] in txns;
    }
  }

  lemma SettleSessionKeepsFinal(w: World, key: string, tx: TxId, winAmount: real, answer: Answer)
    requires FinalInv(w) && key in w.sessions && w.sessions[key].txId == tx && !w.sessions[key].isActive
    requires tx in w.bets && w.bets[tx].status.Placed?
    ensures var w' := SettleSession(w, key, tx, winAmount, answer);
            FinalInv(w') && FinalRowsKept(w.bets, w'.bets)
  {
    SettleSessionKeepsInv(w, key, tx, winAmount, answer);
    UnsentInNoJob(w, {tx});
    JobOwnsItsTx(w);
    FirstFailure(w, SettleSession(w, key, tx, winAmount, answer), tx, SettleJob(StoredWin(winAmount)), answer, {tx});
  }

  lemma RefundBatchKeepsFinal(w: World, batch: seq<Bet>, answer: Answer)
    requires FinalInv(w) && BatchKnown(w.bets, batch)
    requires !answer.NotSent? && !BatchIsSkipped(w.sessions, batch) ==> forall b :: b in batch ==> w.bets[b.txId].status.Placed?
    ensures var w' := RefundBatch(w, batch, answer);
            FinalInv(w') && FinalRowsKept(w.bets, w'.bets)
  {
    RefundBatchKeepsInv(w, batch, answer);
    if !answer.NotSent? && !BatchIsSkipped(w.sessions, batch) {
      var txns := RefundTxns(batch);
      RefundTxnIds(batch);
      UnsentInNoJob(w, TxIds(batch));
      JobOwnsItsTx(w);
      assert batch[0] in batch;
      assert txns[0].tx in TxnIds(txns);
      FirstFailure(w, RefundBatch(w, batch, answer), txns[0].tx, RefundJob(txns), answer, TxIds(batch));
    }
  }

  // ---------------------------------------------------------------- calls of a retry

  /** A retry finds its own job active, so it creates none, and its failed mark changes no row. */
  lemma RetriedCallChangesNothing(w: World, j: nat, answer: Answer)
    requires FinalInv(w) && j < |w.jobs| && Active(w.jobs[j])
    ensures CallAgain(w, w.jobs[j], answer).jobs == w.jobs
    ensures CallAgain(w, w.jobs[j], answer).bets == w.bets
  {
    var job := w.jobs[j];
    assert JobSent(w.wallet, job) && JobWaits(w.bets, job);
    forall kind | SameAction(job.kind, kind) ensures JobsAfter(w.jobs, answer, job.tx, kind, w.now) == w.jobs {
      assert HasActiveJob(w.jobs, job.tx, kind);
    }
    match job.kind {
      case SettleJob(stored) =>
        assert SameAction(job.kind, SettleJob(StoredWin(WinToSend(stored))));
        assert WithStatus(w.bets, {job.tx}, SettlementFailed) == w.bets;
      case RefundJob(txns) =>
        assert SameAction(job.kind, RefundJob(txns));
        assert WithStatus(w.bets, TxnIds(txns), SettlementFailed) == w.bets;
    }
  }

  lemma RowChangeKeepsFinal(w: World, j: nat, row: JobRow)
    requires FinalInv(w) && j < |w.jobs|
    requires Active(w.jobs[j]) || !Active(w.jobs[j].(row := row))
    ensures FinalInv(w.(jobs := WithJobRow(w.jobs, j, row)))
  {
    var w' := w.(jobs := WithJobRow(w.jobs, j, row));
    RowChangeKeepsInv(w, j, row);
    forall i | 0 <= i < |w'.jobs| && Active(w'.jobs[i]) ensures JobWaits(w'.bets, w'.jobs[i]) {
      assert JobWaits(w.bets, w.jobs[i]);
      assert JobTxs(w'.jobs[i]) == JobTxs(w.jobs[i]);
    }
    forall a, b | 0 <= a < b < |w'.jobs| ensures JobTxs(w'.jobs[a]) !! JobTxs(w'.jobs[b]) {
      assert JobTxs(w'.jobs[a]) == JobTxs(w.jobs[a]) && JobTxs(w'.jobs[b]) == JobTxs(w.jobs[b]);
    }
  }

  /** Finishing a job together with its row keeps the invariant: no other job waits on that bet. */
  lemma RowAndJobTogether(w: World, j: nat, rowWritten: bool)
    requires FinalInv(w) && j < |w.jobs| && Active(w.jobs[j])
    ensures var w' := w.(bets := RowAfterRetry(w.bets, w.jobs[j], rowWritten), jobs := WithJobStatus(w.jobs, j, Success));
            (Inv(w') ==> FinalInv(w')) && FinalRowsKept(w.bets, w'.bets)
  {
    var job := w.jobs[j];
    var w' := w.(bets := RowAfterRetry(w.bets, job, rowWritten), jobs := WithJobStatus(w.jobs, j, Success));
    JobOwnsItsTx(w);
    assert JobWaits(w.bets, job);
    forall i | 0 <= i < |w'.jobs| && Active(w'.jobs[i]) ensures JobWaits(w'.bets, w'.jobs[i]) {
      assert i != j && JobWaits(w.bets, w.jobs[i]);
      assert JobTxs(w.jobs[i]) !! JobTxs(w.jobs[j]);
    }
    forall a, b | 0 <= a < b < |w'.jobs| ensures JobTxs(w'.jobs[a]) !! JobTxs(w'.jobs[b]) {
      assert JobTxs(w'.jobs[a]) == JobTxs(w.jobs[a]) && JobTxs(w'.jobs[b]) == JobTxs(w.jobs[b]);
    }
  }

  lemma RetryKeepsFinal(w: World, j: nat, answer: Answer, rowWritten: bool, end: RunEnd)
    requires FinalInv(w) && Tidy(Retry(j, answer, rowWritten, end))
    ensures var w' := RetryRun(w, j, answer, rowWritten, end);
            FinalInv(w') && FinalRowsKept(w.bets, w'.bets)
  {
    RetryKeepsInv(w, j, answer, rowWritten, end);
    if j < |w.jobs| && Active(w.jobs[j]) {
      var started := w.(jobs := WithJobStatus(w.jobs, j, Processing));
      RowChangeKeepsFinal(w, j, w.jobs[j].row.(status := Processing));
      RetriedCallChangesNothing(started, j, answer);
      var w' := RetryRun(w, j, answer, rowWritten, end);
      var called := CallAgain(started, w.jobs[j], answer);
      assert called == CallAgain(started, started.jobs[j], answer);
      assert !end.DiesBeforeCall? ==> Inv(RetryRun(w, j, answer, rowWritten, DiesAfterCall)) by {
        RetryKeepsInv(w, j, answer, rowWritten, DiesAfterCall);
      }
      if end.Completed? {
        if answer.Accepted? {
          RowAndJobTogether(called, j, rowWritten);
        } else {
          RowChangeKeepsFinal(called, j, RowAfterRun(called.jobs[j].row, answer, w.now));
        }
      }
    }
  }

  // ---------------------------------------------------------------- every step, every run

  lemma SessionChangeKeepsFinal(w: World, sessions: map<string, Session>, games: map<TxId, GameRecord>, pass: seq<seq<Bet>>, now: int)
    requires FinalInv(w) && Inv(w.(sessions := sessions, games := games, pass := pass, now := now))
    ensures FinalInv(w.(sessions := sessions, games := games, pass := pass, now := now))
  {
    var w' := w.(sessions := sessions, games := games, pass := pass, now := now);
    forall i | 0 <= i < |w'.jobs| && Active(w'.jobs[i]) ensures JobWaits(w'.bets, w'.jobs[i]) {
      assert JobWaits(w.bets, w.jobs[i]);
    }
  }

  lemma PlaceBetKeepsFinal(w: World, e: Event)
    requires FinalInv(w) && e.BetRequest? && Plausible(w, e)
    ensures FinalInv(Next(w, e)) && FinalRowsKept(w.bets, Next(w, e).bets)
  {
    PlaceBetKeepsInv(w, e);
    PlaceBetOnlyAdds(w, e);
    var w' := Next(w, e);
    forall i | 0 <= i < |w'.jobs| && Active(w'.jobs[i]) ensures JobWaits(w'.bets, w'.jobs[i]) {
      assert JobWaits(w.bets, w.jobs[i]);
    }
  }

  lemma StepKeepsFinal(w: World, key: string, lineNumber: int, hazards: seq<int>, answer: Answer)
    requires FinalInv(w)
    ensures var w' := StepFlow(w, key, lineNumber, hazards, answer);
            FinalInv(w') && FinalRowsKept(w.bets, w'.bets)
  {
    if key in w.sessions {
      var s := w.sessions[key];
      match TakeStep(s, lineNumber, hazards)
      case Advanced(s') =>
        SessionUpdateKeepsInv(w, key, s', Recorded(w.games, s.txId, s'));
        SessionChangeKeepsFinal(w, w.sessions[key := s'], Recorded(w.games, s.txId, s'), w.pass, w.now);
        assert w.(sessions := w.sessions[key := s'], games := Recorded(w.games, s.txId, s'), pass := w.pass, now := w.now)
            == StepFlow(w, key, lineNumber, hazards, answer);
      case Ended(s', amount) =>
        var saved := w.(sessions := w.sessions[key := s'], games := Recorded(w.games, s.txId, s'));
        SessionUpdateKeepsInv(w, key, s', Recorded(w.games, s.txId, s'));
        SessionChangeKeepsFinal(w, w.sessions[key := s'], Recorded(w.games, s.txId, s'), w.pass, w.now);
        assert w.(sessions := w.sessions[key := s'], games := Recorded(w.games, s.txId, s'), pass := w.pass, now := w.now) == saved;
        SettleSessionKeepsFinal(saved, key, s.txId, amount, answer);
      case _ =>
    }
  }

  lemma CashOutKeepsFinal(w: World, key: string, answer: Answer)
    requires FinalInv(w)
    ensures var w' := CashOutFlow(w, key, answer);
            FinalInv(w') && FinalRowsKept(w.bets, w'.bets)
  {
    if key in w.sessions && w.sessions[key].isActive {
      var s := w.sessions[key];
      var saved := w.(sessions := w.sessions[key := CloseForCashOut(s)]);
      SessionUpdateKeepsInv(w, key, CloseForCashOut(s), w.games);
      assert w.(sessions := w.sessions[key := CloseForCashOut(s)], games := w.games) == saved;
      assert w.(sessions := w.sessions[key := CloseForCashOut(s)], games := w.games, pass := w.pass, now := w.now) == saved;
      SessionChangeKeepsFinal(w, w.sessions[key := CloseForCashOut(s)], w.games, w.pass, w.now);
      SettleSessionKeepsFinal(saved, key, s.txId, s.winAmount, answer);
    }
  }

  lemma NextKeepsFinal(w: World, e: Event)
    requires FinalInv(w) && Plausible(w, e) && Tidy(e) && (SendsBatch(w, e) ==> BatchIsFresh(w))
    ensures FinalInv(Next(w, e)) && FinalRowsKept(w.bets, Next(w, e).bets)
  {
    var w' := Next(w, e);
    NextKeepsInv(w, e);
    match e
    case BetRequest(_, _, _, _, _, _) => PlaceBetKeepsFinal(w, e);
    case StepRequest(key, lineNumber, hazards, answer) => StepKeepsFinal(w, key, lineNumber, hazards, answer);
    case CashOutRequest(key, answer) => CashOutKeepsFinal(w, key, answer);
    case NextBatch(answer) =>
      if w.pass != [] {
        var popped := w.(pass := w.pass[1..]);
        PassShrinksKeepsInv(w);
        SessionChangeKeepsFinal(w, w.sessions, w.games, w.pass[1..], w.now);
        assert w.(sessions := w.sessions, games := w.games, pass := w.pass[1..], now := w.now) == popped;
        RefundBatchKeepsFinal(popped, w.pass[0], answer);
      }
    case Retry(j, answer, rowWritten, end) => RetryKeepsFinal(w, j, answer, rowWritten, end);
    case _ =>
      assert w' == w.(sessions := w'.sessions, games := w'.games, pass := w'.pass, now := w'.now);
      SessionChangeKeepsFinal(w, w'.sessions, w'.games, w'.pass, w'.now);
  }

  lemma InitSatisfiesFinalInv()
    ensures FinalInv(Init())
  {}

  /** Once a bet is won, lost or refunded, no further run changes its row. */
  lemma {:induction false} FinalStaysFinal(w: World, es: seq<Event>, tx: TxId)
    requires FinalInv(w) && PlausibleRun(w, es) && SendsOnlyFresh(w, es) && TidyRun(es)
    requires tx in w.bets && Final(w.bets[tx].status)
    ensures tx in Run(w, es).bets && Run(w, es).bets[tx] == w.bets[tx]
    decreases |es|
  {
    if es != [] {
      assert Tidy(es[0]);
      NextKeepsFinal(w, es[0]);
      FinalStaysFinal(Next(w, es[0]), es[1..], tx);
    }
  }

  /** Every state of a tidy run from the start satisfies the invariant, so the theorem above applies to all of them. */
  lemma {:induction false} TidyRunKeepsFinalInv(w: World, es: seq<Event>)
    requires FinalInv(w) && PlausibleRun(w, es) && SendsOnlyFresh(w, es) && TidyRun(es)
    ensures FinalInv(Run(w, es))
    decreases |es|
  {
    if es != [] {
      assert Tidy(es[0]);
      NextKeepsFinal(w, es[0]);
      TidyRunKeepsFinalInv(Next(w, es[0]), es[1..]);
    }
  }

  /**
   * The one way finality is lost. A retry run that is accepted and then dies leaves a bet final and its job active;
   * the next run of that job, if the agent declines the repeated request, marks the bet failed again. Final rows
   * survive the two runs exactly when the first did not die after updating its row.
   */
  lemma FinalSurvivesRerunIff(w: World, j: nat, end: RunEnd, applied: set<TxId>, logged: bool)
    requires FinalInv(w) && j < |w.jobs| && Active(w.jobs[j])
    ensures var first := RetryRun(w, j, Accepted, true, end);
            var second := RetryRun(first, j, Declined(applied, logged), true, Completed);
            FinalRowsKept(first.bets, second.bets) <==> !end.DiesAfterRow?
  {
    var job, tx := w.jobs[j], w.jobs[j].tx;
    var first := RetryRun(w, j, Accepted, true, end);
    var second := RetryRun(first, j, Declined(applied, logged), true, Completed);
    var started := w.(jobs := WithJobStatus(w.jobs, j, Processing));
    RowChangeKeepsFinal(w, j, w.jobs[j].row.(status := Processing));
    RetriedCallChangesNothing(started, j, Accepted);
    JobOwnsItsTx(w);
    if end.DiesAfterRow? {
      assert JobWaits(w.bets, job);
      assert first.bets == RowAfterRetry(w.bets, job, true);
      assert Final(first.bets[tx].status);
      assert second.bets[tx].status.SettlementFailed?;
    } else {
      RetryKeepsFinal(w, j, Accepted, true, end);
      RetryKeepsFinal(first, j, Declined(applied, logged), true, Completed);
    }
  }

  // ---------------------------------------------------------------- any run: stale batches, runs that die

  /** A refund of a batch that replaces a final row: an accepted one a won or lost row, a failed one any. */
  ghost predicate BatchOverwrites(w: World, e: Event) {
    && SendsBatch(w, e)
    && exists b :: b in w.pass[0] && b.txId in w.bets && Final(w.bets[b.txId].status)
                   && (e.answer.Accepted? ==> !w.bets[b.txId].status.Refunded?)
  }

  /** The call of a retry fails for a bet that is already final. */
  ghost predicate MarksFinalFailed(bets: BetTable, job: Job, answer: Answer) {
    Failing(answer) && exists t :: t in JobTxs(job) && t in bets && Final(bets[t].status)
  }

  /** A retry is accepted and writes its outcome over the other kind: a settlement over a refund, a refund over a win or loss. */
  predicate WritesOverOther(bets: BetTable, job: Job, answer: Answer, rowWritten: bool, end: RunEnd)
    requires job.tx in bets
  {
    && answer.Accepted? && rowWritten && (end.Completed? || end.DiesAfterRow?)
    && if job.kind.SettleJob? then bets[job.tx].status.Refunded? else bets[job.tx].status.Won? || bets[job.tx].status.Lost?
  }

  ghost predicate RetryOverwrites(w: World, e: Event) {
    && e.Retry? && e.job < |w.jobs| && Active(w.jobs[e.job]) && !e.end.DiesBeforeCall?
    && w.jobs[e.job].tx in w.bets
    && (MarksFinalFailed(w.bets, w.jobs[e.job], e.answer) || WritesOverOther(w.bets, w.jobs[e.job], e.answer, e.rowWritten, e.end))
  }

  lemma SettleSessionKeepsFinalRows(w: World, key: string, tx: TxId, winAmount: real, answer: Answer)
    requires tx in w.bets && w.bets[tx].status.Placed?
    ensures FinalRowsKept(w.bets, SettleSession(w, key, tx, winAmount, answer).bets)
  {}

  lemma SettlePathsKeepFinalRows(w: World, e: Event)
    requires Inv(w) && (e.StepRequest? || e.CashOutRequest?)
    ensures FinalRowsKept(w.bets, Next(w, e).bets)
  {
    if e.key in w.sessions && w.sessions[e.key].isActive {
      var s := w.sessions[e.key];
      assert s.txId in w.bets && w.bets[s.txId].status.Placed?;
      if e.CashOutRequest? {
        SettleSessionKeepsFinalRows(w.(sessions := w.sessions[e.key := CloseForCashOut(s)]), e.key, s.txId, s.winAmount, e.answer);
      } else {
        match TakeStep(s, e.lineNumber, e.hazards)
        case Ended(s', amount) =>
          var saved := w.(sessions := w.sessions[e.key := s'], games := Recorded(w.games, s.txId, s'));
          SettleSessionKeepsFinalRows(saved, e.key, s.txId, amount, e.answer);
        case _ =>
      }
    }
  }

  /** The rows of a batch that is sent: all refunded, or all marked failed. */
  lemma SentBatchRows(w: World, e: Event)
    requires Inv(w) && SendsBatch(w, e)
    ensures Next(w, e).bets == WithStatus(w.bets, TxIds(w.pass[0]), if e.answer.Accepted? then Refunded else SettlementFailed)
  {
    assert BatchKnown(w.bets, w.pass[0]);
    RefundTxnIds(w.pass[0]);
  }

  lemma BatchKeepsFinalRowsIff(w: World, e: Event)
    requires Inv(w) && e.NextBatch?
    ensures FinalRowsKept(w.bets, Next(w, e).bets) <==> !BatchOverwrites(w, e)
  {
    if SendsBatch(w, e) {
      SentBatchRows(w, e);
      if BatchOverwrites(w, e) {
        var b :| b in w.pass[0] && b.txId in w.bets && Final(w.bets[b.txId].status) && (e.answer.Accepted? ==> !w.bets[b.txId].status.Refunded?);
        assert b.txId in TxIds(w.pass[0]);
        assert Next(w, e).bets[b.txId].status != w.bets[b.txId].status;
      }
    } else if w.pass != [] {
      BatchSends(w, e);
    }
  }

  /** The rows after a retry run that reaches the wallet. */
  lemma RetriedRows(w: World, e: Event)
    requires Inv(w) && e.Retry? && e.job < |w.jobs| && Active(w.jobs[e.job]) && !e.end.DiesBeforeCall?
    ensures w.jobs[e.job].tx in w.bets && w.jobs[e.job].tx in JobTxs(w.jobs[e.job])
    ensures Next(w, e).bets == if Failing(e.answer) then WithStatus(w.bets, JobTxs(w.jobs[e.job]), SettlementFailed)
                               else if e.answer.Accepted? && !e.end.DiesAfterCall? then RowAfterRetry(w.bets, w.jobs[e.job], e.rowWritten)
                               else w.bets
  {
    var job := w.jobs[e.job];
    assert JobSent(w.wallet, job);
    JobTxsSent(w, job);
    CallAgainRepeats(w.(jobs := WithJobStatus(w.jobs, e.job, Processing)), job, e.answer);
  }

  lemma RetryKeepsFinalRowsIff(w: World, e: Event)
    requires Inv(w) && e.Retry?
    ensures FinalRowsKept(w.bets, Next(w, e).bets) <==> !RetryOverwrites(w, e)
  {
    if e.job < |w.jobs| && Active(w.jobs[e.job]) && !e.end.DiesBeforeCall? {
      var job, bets := w.jobs[e.job], Next(w, e).bets;
      RetriedRows(w, e);
      if MarksFinalFailed(w.bets, job, e.answer) {
        var t :| t in JobTxs(job) && t in w.bets && Final(w.bets[t].status);
        assert bets[t].status.SettlementFailed?;
      } else if WritesOverOther(w.bets, job, e.answer, e.rowWritten, e.end) {
        assert bets[job.tx].status != w.bets[job.tx].status;
      }
    }
  }

  /**
   * In every state a run can reach, a step leaves all won, lost and refunded rows as they are exactly when it is neither
   * the refund of a batch nor a retry that overwrites one.
   */
  lemma FinalRowsSurviveIff(w: World, e: Event)
    requires Inv(w) && Plausible(w, e)
    ensures FinalRowsKept(w.bets, Next(w, e).bets) <==> !BatchOverwrites(w, e) && !RetryOverwrites(w, e)
  {
    match e
    case BetRequest(_, _, _, _, _, _) => PlaceBetOnlyAdds(w, e);
    case StepRequest(_, _, _, _) => SettlePathsKeepFinalRows(w, e);
    case CashOutRequest(_, _) => SettlePathsKeepFinalRows(w, e);
    case NextBatch(_) => BatchKeepsFinalRowsIff(w, e);
    case Retry(_, _, _, _) => RetryKeepsFinalRowsIff(w, e);
    case _ =>
  }

  /** No step of the run changes a final row. */
  ghost predicate FinalThroughout(w: World, es: seq<Event>)
    decreases |es|
  {
    es == [] || (FinalRowsKept(w.bets, Next(w, es[0]).bets) && FinalThroughout(Next(w, es[0]), es[1..]))
  }

  ghost predicate NeverOverwrites(w: World, es: seq<Event>)
    decreases |es|
  {
    es == [] || (!BatchOverwrites(w, es[0]) && !RetryOverwrites(w, es[0]) && NeverOverwrites(Next(w, es[0]), es[1..]))
  }

  /** Over every run, final rows are final exactly when no such step occurs; then each of them stands at the end. */
  lemma {:induction false} RunIsFinalIff(w: World, es: seq<Event>)
    requires Inv(w) && PlausibleRun(w, es)
    ensures FinalThroughout(w, es) <==> NeverOverwrites(w, es)
    ensures NeverOverwrites(w, es) ==> FinalRowsKept(w.bets, Run(w, es).bets)
    decreases |es|
  {
    if es != [] {
      NextKeepsInv(w, es[0]);
      FinalRowsSurviveIff(w, es[0]);
      RunIsFinalIff(Next(w, es[0]), es[1..]);
    }
  }

  /** Runs whose batches are fresh and whose retries are tidy are among them. */
  lemma {:induction false} TidyRunNeverOverwrites(w: World, es: seq<Event>)
    requires FinalInv(w) && PlausibleRun(w, es) && SendsOnlyFresh(w, es) && TidyRun(es)
    ensures NeverOverwrites(w, es)
    decreases |es|
  {
    if es != [] {
      assert Tidy(es[0]);
      NextKeepsFinal(w, es[0]);
      FinalRowsSurviveIff(w, es[0]);
      TidyRunNeverOverwrites(Next(w, es[0]), es[1..]);
    }
  }
}
