/** What the agent's books say about each bet, in every state the protocol can reach. */
module ProtocolMoney {
  import opened Common
  import opened GameSession
  import opened Bets
  import opened RefundBatches
  import opened Protocol
  import opened ProtocolSafety
  import opened RetrySchedule

  /** What the game of a bet is worth: nothing after a hit, else the stake times the last cleared column's coefficient, or times 1. */
  function Worth(game: GameRecord): real
    requires game.cleared <= |game.coefficients|
  {
    if game.hit then 0.0 else game.stake * Multiplier(game.coefficients, game.cleared)
  }

  /** The amount a settlement may carry: the worth of the game, or that worth as a retry job keeps it. */
  predicate PaysWorth(game: GameRecord, amount: real)
    requires game.cleared <= |game.coefficients|
  {
    amount == Worth(game) || amount == WinToSend(StoredWin(Worth(game)))
  }

  ghost predicate BetBooked(w: World, t: TxId)
    requires t in w.bets
  {
    && t in w.games && t in w.wallet.debits
    && w.games[t].cleared <= |w.games[t].coefficients|
    && w.wallet.debits[t] == w.games[t].stake
    && w.bets[t].betAmount == Fixed3(w.games[t].stake)
    && (t in w.wallet.credits ==> t in w.wallet.settleSent && PaysWorth(w.games[t], w.wallet.credits[t]))
    && (t in w.wallet.refunds ==> t in w.wallet.cancelSent && w.wallet.refunds[t] == w.bets[t].betAmount)
  }

  /** Every bet row has its debit, and whatever was credited or refunded for it is what its game or its stake is worth. */
  ghost predicate Booked(w: World) {
    && (forall t :: t in w.bets ==> BetBooked(w, t))
    && (forall t :: t in w.wallet.credits || t in w.wallet.refunds ==> t in w.bets)
  }

  /** A row settled with the given amount: its column in three decimals, and WON exactly when the amount is positive. */
  predicate SettledWith(row: Bet, amount: Option<real>) {
    && row.winAmount == Column(amount)
    && (row.status.Won? <==> amount.Some? && amount.value > 0.0)
  }

  /** A settled row shows what the game is worth, to three decimals or as the retry job kept it. */
  predicate RowShowsWorth(row: Bet, game: GameRecord)
    requires game.cleared <= |game.coefficients|
  {
    SettledWith(row, Some(Fixed3(Worth(game)))) || SettledWith(row, StoredWin(Worth(game)))
  }

  /** What a row's status says about the books of its bet. */
  ghost predicate RowAgrees(wallet: Wallet, games: map<TxId, GameRecord>, row: Bet, t: TxId) {
    && (row.status.Won? || row.status.Lost? ==>
          t in wallet.credits && t in games && games[t].cleared <= |games[t].coefficients| && RowShowsWorth(row, games[t]))
    && (row.status.Refunded? ==> t in wallet.refunds)
  }

  ghost predicate RowsAgree(w: World) {
    forall t :: t in w.bets ==> RowAgrees(w.wallet, w.games, w.bets[t], t)
  }

  ghost predicate SessionMatches(games: map<TxId, GameRecord>, s: Session) {
    && s.txId in games
    && SessionValid(s)
    && s.betAmount == games[s.txId].stake
    && s.coefficients == games[s.txId].coefficients
    && games[s.txId].cleared == s.currentStep + 1
    && !games[s.txId].hit
  }

  /** An active session stands where the game of its bet stands. */
  ghost predicate SessionsMatch(w: World) {
    forall k :: k in w.sessions && w.sessions[k].isActive ==> SessionMatches(w.games, w.sessions[k])
  }

  ghost predicate JobMatches(w: World, job: Job) {
    match job.kind
    case SettleJob(stored) =>
      job.tx in w.games && w.games[job.tx].cleared <= |w.games[job.tx].coefficients| && stored == StoredWin(Worth(w.games[job.tx]))
    case RefundJob(txns) =>
      forall x :: x in txns ==> x.tx in w.bets && x.betAmount == w.bets[x.tx].betAmount
  }

  ghost predicate JobsMatch(w: World) {
    forall i :: 0 <= i < |w.jobs| ==> JobMatches(w, w.jobs[i])
  }

  ghost predicate Books(w: World) {
    Booked(w) && RowsAgree(w) && SessionsMatch(w) && JobsMatch(w)
  }

  ghost predicate MoneyInv(w: World) {
    Inv(w) && Books(w)
  }

  // ---------------------------------------------------------------- the two wallet calls

  /** A change that leaves games and stakes alone keeps the jobs right. */
  lemma JobsKeepMatching(w: World, w': World)
    requires JobsMatch(w) && w'.games == w.games && RowsAdvance(w.bets, w'.bets)
    requires |w'.jobs| == |w.jobs|
    requires forall i :: 0 <= i < |w.jobs| ==> w'.jobs[i].tx == w.jobs[i].tx && w'.jobs[i].kind == w.jobs[i].kind
    ensures JobsMatch(w')
  {
    forall i | 0 <= i < |w'.jobs| ensures JobMatches(w', w'.jobs[i]) {
      assert JobMatches(w, w.jobs[i]);
    }
  }

  lemma NewJobsMatch(w: World, w': World, tx: TxId, kind: JobKind, answer: Answer)
    requires JobsMatch(w) && w'.games == w.games && RowsAdvance(w.bets, w'.bets)
    requires w'.jobs == JobsAfter(w.jobs, answer, tx, kind, w.now)
    requires JobMatches(w, NewJob(tx, kind, w.now)) || HasActiveJob(w.jobs, tx, kind)
    ensures JobsMatch(w')
  {
    forall i | 0 <= i < |w'.jobs| ensures JobMatches(w', w'.jobs[i]) {
      if i < |w.jobs| {
        assert JobMatches(w, w.jobs[i]);
      }
    }
  }

  /** Marking rows as failed and growing the agent's books keeps every row in agreement. */
  lemma FailedMarksAgree(w: World, w': World, txs: set<TxId>)
    requires RowsAgree(w) && w'.games == w.games
    requires w.wallet.credits.Keys <= w'.wallet.credits.Keys && w.wallet.refunds.Keys <= w'.wallet.refunds.Keys
    requires w'.bets == w.bets || w'.bets == WithStatus(w.bets, txs, SettlementFailed)
    ensures RowsAgree(w')
  {
    forall t | t in w'.bets ensures RowAgrees(w'.wallet, w'.games, w'.bets[t], t) {
      assert RowAgrees(w.wallet, w.games, w.bets[t], t);
    }
  }

  /** A credit of the right amount for a known bet keeps the books of all bets. */
  lemma CreditKeepsBooked(w: World, w': World, tx: TxId, winAmount: real, applied: set<TxId>)
    requires Booked(w) && w'.games == w.games && RowsAdvance(w.bets, w'.bets)
    requires tx in w.bets && tx in w.games && w.games[tx].cleared <= |w.games[tx].coefficients| && PaysWorth(w.games[tx], winAmount)
    requires w'.wallet == w.wallet.(settleSent := w.wallet.settleSent + {tx}, credits := Apply(w.wallet.credits, map[tx := winAmount], applied))
    ensures Booked(w')
  {
    forall t | t in w'.bets ensures BetBooked(w', t) {
      assert BetBooked(w, t);
    }
  }

  /** Refunds of the stored stakes of known bets keep the books of all bets. */
  lemma RefundsKeepBooked(w: World, w': World, txs: set<TxId>, amounts: map<TxId, real>, applied: set<TxId>)
    requires Booked(w) && w'.games == w.games && RowsAdvance(w.bets, w'.bets)
    requires amounts.Keys == txs && forall t :: t in amounts ==> t in w.bets && amounts[t] == w.bets[t].betAmount
    requires w'.wallet == w.wallet.(cancelSent := w.wallet.cancelSent + txs, refunds := Apply(w.wallet.refunds, amounts, applied))
    ensures Booked(w')
  {
    forall t | t in w'.bets ensures BetBooked(w', t) {
      assert BetBooked(w, t);
    }
  }

  lemma CallSettleKeepsMoney(w: World, tx: TxId, winAmount: real, stored: Option<real>, answer: Answer)
    requires Books(w)
    requires tx in w.bets && tx in w.games && w.games[tx].cleared <= |w.games[tx].coefficients| && PaysWorth(w.games[tx], winAmount)
    requires stored == StoredWin(Worth(w.games[tx])) || HasActiveJob(w.jobs, tx, SettleJob(stored))
    ensures var w' := CallSettle(w, tx, winAmount, stored, answer);
            Books(w') && (answer.Accepted? ==> tx in w'.wallet.credits)
  {
    var w' := CallSettle(w, tx, winAmount, stored, answer);
    if !answer.NotSent? {
      StatusAdvances(w.bets, {tx}, SettlementFailed);
      NewJobsMatch(w, w', tx, SettleJob(stored), answer);
      CreditKeepsBooked(w, w', tx, winAmount, AppliedTo(answer, {tx}));
      FailedMarksAgree(w, w', {tx});
    }
  }

  lemma {:induction false} AmountsKeys(txns: seq<RefundTxn>)
    ensures Amounts(txns).Keys == TxnIds(txns)
  {
    if txns != [] {
      var front, last := txns[..|txns| - 1], txns[|txns| - 1];
      AmountsKeys(front);
      assert txns == front + [last];
      assert TxnIds(txns) == TxnIds(front) + {last.tx};
    }
  }

  lemma {:induction false} AmountsOf(txns: seq<RefundTxn>, bets: BetTable)
    requires forall x :: x in txns ==> x.tx in bets && x.betAmount == bets[x.tx].betAmount
    ensures forall t :: t in Amounts(txns) ==> t in bets && Amounts(txns)[t] == bets[t].betAmount
  {
    if txns != [] {
      AmountsOf(txns[..|txns| - 1], bets);
    }
  }

  lemma CallRefundKeepsMoney(w: World, txns: seq<RefundTxn>, answer: Answer)
    requires Books(w)
    requires forall x :: x in txns ==> x.tx in w.bets && x.betAmount == w.bets[x.tx].betAmount
    requires txns != []
    ensures var w' := CallRefund(w, txns, answer);
            Books(w') && (answer.Accepted? ==> TxnIds(txns) <= w'.wallet.refunds.Keys)
  {
    var w' := CallRefund(w, txns, answer);
    if !answer.NotSent? {
      AmountsKeys(txns);
      AmountsOf(txns, w.bets);
      StatusAdvances(w.bets, TxnIds(txns), SettlementFailed);
      NewJobsMatch(w, w', txns[0].tx, RefundJob(txns), answer);
      RefundsKeepBooked(w, w', TxnIds(txns), Amounts(txns), AppliedTo(answer, TxnIds(txns)));
      FailedMarksAgree(w, w', TxnIds(txns));
    }
  }

  /** Giving rows a status the books support keeps them in agreement. */
  lemma RowUpdateKeepsMoney(w: World, w': World)
    requires Books(w)
    requires w'.wallet == w.wallet && w'.games == w.games && w'.jobs == w.jobs && RowsAdvance(w.bets, w'.bets)
    requires forall k :: k in w'.sessions ==> k in w.sessions && w'.sessions[k] == w.sessions[k]
    requires forall t :: t in w.bets && w'.bets[t] != w.bets[t] ==> RowAgrees(w.wallet, w.games, w'.bets[t], t)
    ensures Books(w')
  {
    JobsKeepMatching(w, w');
    forall t | t in w'.bets ensures BetBooked(w', t) {
      assert BetBooked(w, t);
    }
  }

  // ---------------------------------------------------------------- the flows

  /** A row settled with the worth of its game, or as the retry job kept it, agrees with the books. */
  lemma SettledRowAgrees(w: World, tx: TxId, win: Option<real>)
    requires RowsAgree(w) && tx in w.bets && tx in w.wallet.credits
    requires tx in w.games && w.games[tx].cleared <= |w.games[tx].coefficients|
    requires win == Some(Fixed3(Worth(w.games[tx]))) || win == StoredWin(Worth(w.games[tx]))
    ensures RowAgrees(w.wallet, w.games, WithSettlement(w.bets, tx, win)[tx], tx)
  {
    assert RowAgrees(w.wallet, w.games, w.bets[tx], tx);
  }

  lemma SettleSessionKeepsMoney(w: World, key: string, tx: TxId, winAmount: real, answer: Answer)
    requires MoneyInv(w) && key in w.sessions && w.sessions[key].txId == tx && !w.sessions[key].isActive
    requires tx in w.bets && w.bets[tx].status.Placed?
    requires BetBooked(w, tx) && winAmount == Worth(w.games[tx])
    ensures MoneyInv(SettleSession(w, key, tx, winAmount, answer))
  {
    SettleSessionKeepsInv(w, key, tx, winAmount, answer);
    CallSettleKeepsMoney(w, tx, winAmount, StoredWin(winAmount), answer);
    if answer.Accepted? {
      var called := CallSettle(w, tx, winAmount, StoredWin(winAmount), answer);
      SettlementAdvances(called.bets, tx, Some(Fixed3(winAmount)));
      SettledRowAgrees(called, tx, Some(Fixed3(winAmount)));
      RowUpdateKeepsMoney(called, SettleSession(w, key, tx, winAmount, answer));
    }
  }

  /** Saving a step: the session and the game record of its bet move together; no request was sent for that bet yet. */
  lemma SavedStepKeepsMoney(w: World, key: string, s': Session, game': GameRecord)
    requires MoneyInv(w) && key in w.sessions && w.sessions[key].isActive && s'.txId == w.sessions[key].txId
    requires s'.txId in w.games && game'.stake == w.games[s'.txId].stake && game'.coefficients == w.games[s'.txId].coefficients
    requires game'.cleared <= |game'.coefficients|
    requires s'.isActive ==> SessionMatches(w.games[s'.txId := game'], s')
    ensures MoneyInv(w.(sessions := w.sessions[key := s'], games := w.games[s'.txId := game']))
  {
    var tx := s'.txId;
    var w' := w.(sessions := w.sessions[key := s'], games := w.games[tx := game']);
    SessionUpdateKeepsInv(w, key, s', w.games[tx := game']);
    forall t | t in w'.bets ensures BetBooked(w', t) {
      assert BetBooked(w, t);
    }
    forall i | 0 <= i < |w'.jobs| ensures JobMatches(w', w'.jobs[i]) {
      assert JobMatches(w, w.jobs[i]) && JobSent(w.wallet, w.jobs[i]);
    }
    forall k | k in w'.sessions && w'.sessions[k].isActive ensures SessionMatches(w'.games, w'.sessions[k]) {
      if k != key {
        assert SessionMatches(w.games, w.sessions[k]);
        assert w.sessions[k].txId != tx;
      }
    }
  }

  /** The end of a game: the finished session is saved with its record, then its worth is settled. */
  lemma FinishKeepsMoney(w: World, key: string, s': Session, game': GameRecord, answer: Answer)
    requires MoneyInv(w) && key in w.sessions && w.sessions[key].isActive
    requires s'.txId == w.sessions[key].txId && !s'.isActive
    requires s'.txId in w.games && game'.stake == w.games[s'.txId].stake && game'.coefficients == w.games[s'.txId].coefficients
    requires game'.cleared <= |game'.coefficients|
    ensures var saved := w.(sessions := w.sessions[key := s'], games := w.games[s'.txId := game']);
            MoneyInv(SettleSession(saved, key, s'.txId, Worth(game'), answer))
  {
    var saved := w.(sessions := w.sessions[key := s'], games := w.games[s'.txId := game']);
    SavedStepKeepsMoney(w, key, s', game');
    assert BetBooked(saved, s'.txId);
    SettleSessionKeepsMoney(saved, key, s'.txId, Worth(game'), answer);
  }

  /** A step that ends the game is settled with what the game, recorded up to that step, is worth. */
  lemma EndedStepIsWorth(games: map<TxId, GameRecord>, s: Session, lineNumber: int, hazards: seq<int>)
    requires SessionMatches(games, s) && s.isActive && TakeStep(s, lineNumber, hazards).Ended?
    ensures var end := TakeStep(s, lineNumber, hazards);
            var game := Recorded(games, s.txId, end.session)[s.txId];
            && game.stake == games[s.txId].stake && game.coefficients == games[s.txId].coefficients
            && game.cleared <= |game.coefficients| && Worth(game) == end.settlement
  {}

  lemma StepKeepsMoney(w: World, key: string, lineNumber: int, hazards: seq<int>, answer: Answer)
    requires MoneyInv(w)
    ensures MoneyInv(StepFlow(w, key, lineNumber, hazards, answer))
  {
    if key in w.sessions && w.sessions[key].isActive {
      var s := w.sessions[key];
      assert SessionMatches(w.games, s);
      ServeKeepsSessionValid(s, StepTo(lineNumber, hazards));
      match TakeStep(s, lineNumber, hazards)
      case Advanced(s') => SavedStepKeepsMoney(w, key, s', Recorded(w.games, s.txId, s')[s.txId]);
      case Ended(s', amount) =>
        var game' := Recorded(w.games, s.txId, s')[s.txId];
        EndedStepIsWorth(w.games, s, lineNumber, hazards);
        FinishKeepsMoney(w, key, s', game', answer);
      case _ =>
    }
  }

  lemma CashOutKeepsMoney(w: World, key: string, answer: Answer)
    requires MoneyInv(w)
    ensures MoneyInv(CashOutFlow(w, key, answer))
  {
    if key in w.sessions && w.sessions[key].isActive {
      var s := w.sessions[key];
      assert SessionMatches(w.games, s);
      var game := w.games[s.txId];
      assert Worth(game) == s.winAmount;
      FinishKeepsMoney(w, key, CloseForCashOut(s), game, answer);
      assert w.games[s.txId := game] == w.games;
      assert w.(sessions := w.sessions[key := CloseForCashOut(s)], games := w.games) == w.(sessions := w.sessions[key := CloseForCashOut(s)]);
    }
  }

  lemma DebitKeepsMoney(w: World, tx: TxId, amount: real, applied: set<TxId>)
    requires MoneyInv(w) && tx !in w.bets
    ensures MoneyInv(w.(wallet := w.wallet.(debits := Apply(w.wallet.debits, map[tx := amount], applied))))
  {
    var w' := w.(wallet := w.wallet.(debits := Apply(w.wallet.debits, map[tx := amount], applied)));
    assert Inv(w');
    JobsKeepMatching(w, w');
    forall t | t in w'.bets ensures BetBooked(w', t) {
      assert BetBooked(w, t);
    }
  }

  lemma AddRowKeepsMoney(w: World, row: Bet, amount: real, coefficients: seq<real>)
    requires MoneyInv(w) && row.txId !in w.bets && PlainIds(row)
    requires row.txId in w.wallet.debits && w.wallet.debits[row.txId] == amount
    ensures MoneyInv(AddRow(w, row, amount, coefficients))
  {
    var w' := AddRow(w, row, amount, coefficients);
    AddRowKeepsInv(w, row, amount, coefficients);
    forall t | t in w'.bets ensures BetBooked(w', t) {
      if t in w.bets { assert BetBooked(w, t); }
    }
    forall i | 0 <= i < |w'.jobs| ensures JobMatches(w', w'.jobs[i]) {
      assert JobMatches(w, w.jobs[i]) && JobSent(w.wallet, w.jobs[i]);
    }
    forall k | k in w'.sessions && w'.sessions[k].isActive ensures SessionMatches(w'.games, w'.sessions[k]) {
      assert SessionMatches(w.games, w.sessions[k]);
    }
  }

  lemma AddSessionKeepsMoney(w: World, key: string, s: Session)
    requires MoneyInv(w) && s.txId in w.bets && HomeKey(w.bets[s.txId]) == key && w.bets[s.txId].status.Placed?
    requires SessionMatches(w.games, s)
    ensures MoneyInv(w.(sessions := w.sessions[key := s]))
  {
    var w' := w.(sessions := w.sessions[key := s]);
    AddSessionKeepsInv(w, key, s);
    JobsKeepMatching(w, w');
    forall t | t in w'.bets ensures BetBooked(w', t) {
      assert BetBooked(w, t);
    }
  }

  lemma PlaceBetKeepsMoney(w: World, e: Event)
    requires MoneyInv(w) && e.BetRequest? && Plausible(w, e)
    ensures MoneyInv(Next(w, e))
  {
    var row, answer := e.row, e.answer;
    var key := SessionKey(row.userId, row.operatorId, e.gameCode);
    if !(key in w.sessions && w.sessions[key].isActive) && e.amount > 0.0 {
      DebitKeepsMoney(w, row.txId, e.amount, AppliedTo(answer, {row.txId}));
      var debited := w.(wallet := w.wallet.(debits := Apply(w.wallet.debits, map[row.txId := e.amount], AppliedTo(answer, {row.txId}))));
      if answer.Accepted? && e.gameActive {
        AddRowKeepsMoney(debited, row, e.amount, e.coefficients);
        if e.coefficients != [] {
          AddSessionKeepsMoney(AddRow(debited, row, e.amount, e.coefficients), key, NewSession(row.operatorId, row.txId, e.amount, e.coefficients));
        }
      }
    }
  }

  lemma RefundBatchKeepsMoney(w: World, batch: seq<Bet>, answer: Answer)
    requires MoneyInv(w) && BatchKnown(w.bets, batch)
    ensures MoneyInv(RefundBatch(w, batch, answer))
  {
    RefundBatchKeepsInv(w, batch, answer);
    if !BatchIsSkipped(w.sessions, batch) {
      RefundTxnIds(batch);
      CallRefundKeepsMoney(w, RefundTxns(batch), answer);
      if answer.Accepted? {
        StatusAdvances(w.bets, TxIds(batch), Refunded);
        RowUpdateKeepsMoney(CallRefund(w, RefundTxns(batch), answer), RefundBatch(w, batch, answer));
      }
    }
  }

  lemma JobRowKeepsMoney(w: World, j: nat, row: JobRow)
    requires Books(w) && j < |w.jobs|
    ensures Books(w.(jobs := WithJobRow(w.jobs, j, row)))
  {
    var w' := w.(jobs := WithJobRow(w.jobs, j, row));
    JobsKeepMatching(w, w');
    forall t | t in w'.bets ensures BetBooked(w', t) {
      assert BetBooked(w, t);
    }
  }

  /** The call of a retry, with its job marked as processing. */
  lemma RetriedCallKeepsMoney(w: World, j: nat, answer: Answer)
    requires Inv(w) && Books(w)
    requires j < |w.jobs| && Active(w.jobs[j])
    ensures var called := CallAgain(w, w.jobs[j], answer);
            && Books(called)
            && (answer.Accepted? ==> RetryBooked(called, w.jobs[j]))
  {
    var job := w.jobs[j];
    assert JobSent(w.wallet, job) && JobMatches(w, job);
    match job.kind {
      case SettleJob(stored) =>
        assert HasActiveJob(w.jobs, job.tx, SettleJob(StoredWin(WinToSend(stored))));
        CallSettleKeepsMoney(w, job.tx, WinToSend(stored), StoredWin(WinToSend(stored)), answer);
      case RefundJob(txns) =>
        CallRefundKeepsMoney(w, txns, answer);
        assert txns[0] in txns;
    }
    CallAdvancesRows(w, job, answer);
  }

  /** The bet of an accepted retry is closed and the retried amount is on the books. */
  ghost predicate RetryBooked(w: World, job: Job) {
    && job.tx in w.bets && !w.bets[job.tx].status.Placed? && JobMatches(w, job)
    && (job.kind.SettleJob? ==> job.tx in w.wallet.credits)
    && (job.kind.RefundJob? ==> job.tx in w.wallet.refunds)
  }

  lemma RetriedRowKeepsMoney(w: World, job: Job, rowWritten: bool)
    requires Books(w) && RetryBooked(w, job)
    ensures var w' := w.(bets := RowAfterRetry(w.bets, job, rowWritten));
            Books(w')
  {
    var w' := w.(bets := RowAfterRetry(w.bets, job, rowWritten));
    RetryRowAdvances(w, job, rowWritten);
    if job.kind.SettleJob? {
      SettledRowAgrees(w, job.tx, job.kind.winAmount);
    }
    RowUpdateKeepsMoney(w, w');
  }

  /** The rest of a run, from the wallet call on. */
  lemma StartedRunKeepsBooks(w: World, j: nat, job: Job, answer: Answer, rowWritten: bool, end: RunEnd)
    requires Inv(w) && Books(w) && j < |w.jobs| && w.jobs[j] == job.(row := job.row.(status := Processing))
    ensures var called := CallAgain(w, job, answer);
            var updated := if answer.Accepted? then called.(bets := RowAfterRetry(called.bets, job, rowWritten)) else called;
            && Books(called) && Books(updated) && j < |updated.jobs|
            && forall row :: Books(updated.(jobs := WithJobRow(updated.jobs, j, row)))
  {
    RetriedCallKeepsMoney(w, j, answer);
    var called := CallAgain(w, job, answer);
    assert CallAgain(w, w.jobs[j], answer) == called;
    CallKeepsJobs(w, job, answer);
    if answer.Accepted? {
      RetriedRowKeepsMoney(called, w.jobs[j], rowWritten);
      assert RowAfterRetry(called.bets, w.jobs[j], rowWritten) == RowAfterRetry(called.bets, job, rowWritten);
    }
    var updated := if answer.Accepted? then called.(bets := RowAfterRetry(called.bets, job, rowWritten)) else called;
    forall row ensures Books(updated.(jobs := WithJobRow(updated.jobs, j, row))) {
      JobRowKeepsMoney(updated, j, row);
    }
  }

  lemma RetryKeepsMoney(w: World, j: nat, answer: Answer, rowWritten: bool, end: RunEnd)
    requires MoneyInv(w)
    ensures MoneyInv(RetryRun(w, j, answer, rowWritten, end))
  {
    RetryKeepsInv(w, j, answer, rowWritten, end);
    if j < |w.jobs| && Active(w.jobs[j]) {
      var started := w.(jobs := WithJobStatus(w.jobs, j, Processing));
      RowChangeKeepsInv(w, j, w.jobs[j].row.(status := Processing));
      JobRowKeepsMoney(w, j, w.jobs[j].row.(status := Processing));
      StartedRunKeepsBooks(started, j, w.jobs[j], answer, rowWritten, end);
    }
  }

  lemma SessionsAndPassKeepMoney(w: World, sessions: map<string, Session>, pass: seq<seq<Bet>>, now: int)
    requires MoneyInv(w) && Inv(w.(sessions := sessions, pass := pass, now := now))
    requires forall k :: k in sessions ==> k in w.sessions && sessions[k] == w.sessions[k]
    ensures MoneyInv(w.(sessions := sessions, pass := pass, now := now))
  {
    RowUpdateKeepsMoney(w, w.(sessions := sessions, pass := pass, now := now));
  }

  lemma NextKeepsMoney(w: World, e: Event)
    requires MoneyInv(w) && Plausible(w, e)
    ensures MoneyInv(Next(w, e))
  {
    var w' := Next(w, e);
    NextKeepsInv(w, e);
    match e
    case BetRequest(_, _, _, _, _, _) => PlaceBetKeepsMoney(w, e);
    case StepRequest(key, lineNumber, hazards, answer) => StepKeepsMoney(w, key, lineNumber, hazards, answer);
    case CashOutRequest(key, answer) => CashOutKeepsMoney(w, key, answer);
    case NextBatch(answer) =>
      if w.pass != [] {
        PassShrinksKeepsInv(w);
        SessionsAndPassKeepMoney(w, w.sessions, w.pass[1..], w.now);
        assert w.(sessions := w.sessions, pass := w.pass[1..], now := w.now) == w.(pass := w.pass[1..]);
        RefundBatchKeepsMoney(w.(pass := w.pass[1..]), w.pass[0], answer);
      }
    case Retry(j, answer, rowWritten, end) => RetryKeepsMoney(w, j, answer, rowWritten, end);
    case _ =>
      assert w' == w.(sessions := w'.sessions, pass := w'.pass, now := w'.now);
      SessionsAndPassKeepMoney(w, w'.sessions, w'.pass, w'.now);
  }

  lemma {:induction false} RunKeepsMoney(w: World, es: seq<Event>)
    requires MoneyInv(w) && PlausibleRun(w, es)
    ensures MoneyInv(Run(w, es))
    decreases |es|
  {
    if es != [] {
      NextKeepsMoney(w, es[0]);
      RunKeepsMoney(Next(w, es[0]), es[1..]);
    }
  }
}
