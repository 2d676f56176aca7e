/** What the status of a bet row says about the requests sent for the bet, in every run of the protocol. */
module ProtocolRows {
  import opened Common
  import opened GameSession
  import opened Bets
  import opened RefundBatches
  import opened Protocol
  import opened ProtocolSafety

  /** The request behind each status: none for an open bet, a settlement for won and lost, a cancelBet for refunded, either for failed. */
  predicate RowBacked(wallet: Wallet, status: BetStatus, t: TxId) {
    match status
    case Placed => t !in wallet.settleSent && t !in wallet.cancelSent
    case Won => t in wallet.settleSent
    case Lost => t in wallet.settleSent
    case Refunded => t in wallet.cancelSent
    case SettlementFailed => t in wallet.settleSent || t in wallet.cancelSent
    case _ => false
  }

  ghost predicate RowsBacked(w: World) {
    forall t :: t in w.bets ==> RowBacked(w.wallet, w.bets[t].status, t)
  }

  /** What the requests sent for a bet tell about its status. */
  predicate RowFits(wallet: Wallet, status: BetStatus, t: TxId) {
    && (t in wallet.settleSent ==> status.Won? || status.Lost? || status.SettlementFailed?)
    && (t in wallet.cancelSent ==> status.Refunded? || status.SettlementFailed?)
    && (t !in wallet.settleSent && t !in wallet.cancelSent ==> status.Placed?)
  }

  ghost predicate StatusFits(w: World) {
    forall t :: t in w.bets ==> RowFits(w.wallet, w.bets[t].status, t)
  }

  // ---------------------------------------------------------------- the flows

  lemma PlaceBetKeepsBacked(w: World, e: Event)
    requires Inv(w) && RowsBacked(w) && e.BetRequest?
    ensures RowsBacked(Next(w, e))
  {
    var w' := Next(w, e);
    PlaceBetOnlyAdds(w, e);
    forall t | t in w'.bets ensures RowBacked(w'.wallet, w'.bets[t].status, t) {
      if t in w.bets {
        assert RowBacked(w.wallet, w.bets[t].status, t);
      }
    }
  }

  lemma SettleSessionKeepsBacked(w: World, key: string, tx: TxId, winAmount: real, answer: Answer)
    requires RowsBacked(w) && tx in w.bets
    ensures RowsBacked(SettleSession(w, key, tx, winAmount, answer))
  {
    var w' := SettleSession(w, key, tx, winAmount, answer);
    forall t | t in w'.bets ensures RowBacked(w'.wallet, w'.bets[t].status, t) {
      assert RowBacked(w.wallet, w.bets[t].status, t);
    }
  }

  lemma SettlePathsKeepBacked(w: World, e: Event)
    requires Inv(w) && RowsBacked(w) && (e.StepRequest? || e.CashOutRequest?)
    ensures RowsBacked(Next(w, e))
  {
    if e.key in w.sessions && w.sessions[e.key].isActive {
      var s := w.sessions[e.key];
      assert s.txId in w.bets;
      if e.CashOutRequest? {
        SettleSessionKeepsBacked(w.(sessions := w.sessions[e.key := CloseForCashOut(s)]), e.key, s.txId, s.winAmount, e.answer);
      } else {
        match TakeStep(s, e.lineNumber, e.hazards)
        case Ended(s', amount) =>
          var saved := w.(sessions := w.sessions[e.key := s'], games := Recorded(w.games, s.txId, s'));
          SettleSessionKeepsBacked(saved, e.key, s.txId, amount, e.answer);
        case _ =>
      }
    }
  }

  lemma RefundBatchKeepsBacked(w: World, batch: seq<Bet>, answer: Answer)
    requires RowsBacked(w) && batch != []
    ensures RowsBacked(RefundBatch(w, batch, answer))
  {
    var w' := RefundBatch(w, batch, answer);
    RefundTxnIds(batch);
    forall t | t in w'.bets ensures RowBacked(w'.wallet, w'.bets[t].status, t) {
      assert RowBacked(w.wallet, w.bets[t].status, t);
    }
  }

  lemma CallAgainKeepsBacked(w: World, job: Job, answer: Answer)
    requires RowsBacked(w) && JobSent(w.wallet, job)
    ensures RowsBacked(CallAgain(w, job, answer))
  {
    var called := CallAgain(w, job, answer);
    CallAgainRepeats(w, job, answer);
    JobTxsSent(w, job);
    forall t | t in called.bets ensures RowBacked(called.wallet, called.bets[t].status, t) {
      assert RowBacked(w.wallet, w.bets[t].status, t);
    }
  }

  lemma RetryRowKeepsBacked(w: World, job: Job, rowWritten: bool)
    requires RowsBacked(w) && JobSent(w.wallet, job)
    ensures RowsBacked(w.(bets := RowAfterRetry(w.bets, job, rowWritten)))
  {
    JobTxsSent(w, job);
    var bets := RowAfterRetry(w.bets, job, rowWritten);
    forall t | t in bets ensures RowBacked(w.wallet, bets[t].status, t) {
      assert RowBacked(w.wallet, w.bets[t].status, t);
    }
  }

  lemma RetryKeepsBacked(w: World, j: nat, answer: Answer, rowWritten: bool, end: RunEnd)
    requires Inv(w) && RowsBacked(w)
    ensures RowsBacked(RetryRun(w, j, answer, rowWritten, end))
  {
    if j < |w.jobs| && Active(w.jobs[j]) {
      var job := w.jobs[j];
      var started := w.(jobs := WithJobStatus(w.jobs, j, Processing));
      assert JobSent(w.wallet, job);
      CallAgainRepeats(started, job, answer);
      CallAgainKeepsBacked(started, job, answer);
      JobTxsSent(w, job);
      RetryRowKeepsBacked(CallAgain(started, job, answer), job, rowWritten);
    }
  }

  // ---------------------------------------------------------------- every run

  lemma NextKeepsBacked(w: World, e: Event)
    requires Inv(w) && RowsBacked(w) && Plausible(w, e)
    ensures RowsBacked(Next(w, e))
  {
    match e
    case BetRequest(_, _, _, _, _, _) => PlaceBetKeepsBacked(w, e);
    case StepRequest(_, _, _, _) => SettlePathsKeepBacked(w, e);
    case CashOutRequest(_, _) => SettlePathsKeepBacked(w, e);
    case NextBatch(answer) =>
      if w.pass != [] {
        assert BatchKnown(w.bets, w.pass[0]);
        RefundBatchKeepsBacked(w.(pass := w.pass[1..]), w.pass[0], answer);
      }
    case Retry(j, answer, rowWritten, end) => RetryKeepsBacked(w, j, answer, rowWritten, end);
    case _ =>
  }

  /** In every run, each status but the open one is backed by a request, and an open bet has none. */
  lemma {:induction false} RunKeepsBacked(w: World, es: seq<Event>)
    requires Inv(w) && RowsBacked(w) && PlausibleRun(w, es)
    ensures Inv(Run(w, es)) && RowsBacked(Run(w, es))
    decreases |es|
  {
    if es != [] {
      NextKeepsInv(w, es[0]);
      NextKeepsBacked(w, es[0]);
      RunKeepsBacked(Next(w, es[0]), es[1..]);
    }
  }

  /** Where only fresh batches are sent, the requests tell the status the other way round. */
  lemma RequestsTellStatus(w: World, es: seq<Event>)
    requires Inv(w) && RowsBacked(w) && Exclusive(w) && PlausibleRun(w, es) && SendsOnlyFresh(w, es)
    ensures StatusFits(Run(w, es))
  {
    RunKeepsBacked(w, es);
    NeverSettledAndCancelled(w, es);
    var w' := Run(w, es);
    forall t | t in w'.bets ensures RowFits(w'.wallet, w'.bets[t].status, t) {
      assert RowBacked(w'.wallet, w'.bets[t].status, t);
    }
  }
}
