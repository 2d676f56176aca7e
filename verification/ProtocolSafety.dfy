/** The invariant of every run of the protocol, and exactly when a run both settles and cancels a transaction. */
module ProtocolSafety {
  import opened Common
  import opened GameSession
  import opened Bets
  import opened RefundBatches
  import opened Protocol
  import opened RetrySchedule

  // ---------------------------------------------------------------- what a caller has to keep

  predicate PlainIds(bet: Bet) {
    ':' !in bet.userId && ':' !in bet.operatorId
  }

  /**
   * The assumptions on a run. Transaction ids are fresh, ids carry no colon (registration admits only letters and
   * digits), the catalogue returns the game code it was asked for, and the refund query lists what it promises.
   * Nothing is assumed about what happens between that query and the batches made from it.
   */
  ghost predicate Plausible(w: World, e: Event) {
    match e
    case BetRequest(gameCode, row, _, _, _, _) =>
      row.txId !in w.bets && row.txId !in w.wallet.debits && PlainIds(row) && row.gameCode == gameCode
    case ReadOldBets(listed) => exists threshold :: ListsOldPlaced(listed, w.bets, threshold)
    case _ => true
  }

  ghost predicate PlausibleRun(w: World, es: seq<Event>)
    decreases |es|
  {
    es == [] || (Plausible(w, es[0]) && PlausibleRun(Next(w, es[0]), es[1..]))
  }

  /** This step sends the refund of a batch. */
  predicate SendsBatch(w: World, e: Event) {
    e.NextBatch? && w.pass != [] && !e.answer.NotSent? && !BatchIsSkipped(w.sessions, w.pass[0])
  }

  /** Every bet of the batch at hand is still open. */
  predicate BatchIsFresh(w: World) {
    w.pass != [] ==> forall b :: b in w.pass[0] && b.txId in w.bets ==> w.bets[b.txId].status.Placed?
  }

  /** Whenever the refund of a batch is sent, its bets are still open: what a second look at the rows would tell. */
  ghost predicate SendsOnlyFresh(w: World, es: seq<Event>)
    decreases |es|
  {
    es == [] || ((SendsBatch(w, es[0]) ==> BatchIsFresh(w)) && SendsOnlyFresh(Next(w, es[0]), es[1..]))
  }

  // ---------------------------------------------------------------- the invariant

  /** Except for the bets in `open`, a bet for which one of the two requests was sent is no longer open. */
  ghost predicate CallsCloseBets(w: World, open: set<TxId>) {
    forall t :: t in w.wallet.settleSent || t in w.wallet.cancelSent ==>
      t in w.bets && (t in open || !w.bets[t].status.Placed?)
  }

  /** Each session lies under the key of its bet, and an active one belongs to an open bet. */
  ghost predicate SessionsAtHome(w: World) {
    forall k :: k in w.sessions ==>
      var s := w.sessions[k];
      s.txId in w.bets && HomeKey(w.bets[s.txId]) == k && (s.isActive ==> w.bets[s.txId].status.Placed?)
  }

  ghost predicate RowsPlain(w: World) {
    forall t :: t in w.bets ==> w.bets[t].txId == t && PlainIds(w.bets[t])
  }

  ghost predicate JobSent(wallet: Wallet, job: Job) {
    match job.kind
    case SettleJob(_) => job.tx in wallet.settleSent
    case RefundJob(txns) => txns != [] && txns[0].tx == job.tx && TxnIds(txns) <= wallet.cancelSent
  }

  /** Every job repeats a request that was sent before. */
  ghost predicate JobsRepeat(w: World) {
    forall i :: 0 <= i < |w.jobs| ==> JobSent(w.wallet, w.jobs[i])
  }

  /** Two rows of the same bet: only the status and the win amount may differ. */
  predicate SameBet(a: Bet, b: Bet) {
    a.(status := b.status, winAmount := b.winAmount) == b
  }

  ghost predicate BatchKnown(bets: BetTable, batch: seq<Bet>) {
    && batch != []
    && (forall b :: b in batch ==> b.txId in bets && SameBet(b, bets[b.txId]))
  }

  /** The batches of a refund pass are about known bets. */
  ghost predicate PassKnown(w: World) {
    forall batch :: batch in w.pass ==> BatchKnown(w.bets, batch)
  }

  /** The invariant in the middle of a flow, when the rows of `open` are still to be updated. */
  ghost predicate InvBut(w: World, open: set<TxId>) {
    CallsCloseBets(w, open) && SessionsAtHome(w) && RowsPlain(w) && JobsRepeat(w) && PassKnown(w)
  }

  ghost predicate Inv(w: World) {
    InvBut(w, {})
  }

  // ---------------------------------------------------------------- jobs only grow

  lemma EnqueueRepeats(wallet: Wallet, jobs: seq<Job>, tx: TxId, kind: JobKind, now: int)
    requires forall i :: 0 <= i < |jobs| ==> JobSent(wallet, jobs[i])
    requires JobSent(wallet, NewJob(tx, kind, now))
    ensures forall i :: 0 <= i < |Enqueue(jobs, tx, kind, now)| ==> JobSent(wallet, Enqueue(jobs, tx, kind, now)[i])
  {}

  lemma JobsAfterRepeats(wallet: Wallet, jobs: seq<Job>, answer: Answer, tx: TxId, kind: JobKind, now: int)
    requires forall i :: 0 <= i < |jobs| ==> JobSent(wallet, jobs[i])
    requires JobSent(wallet, NewJob(tx, kind, now))
    ensures forall i :: 0 <= i < |JobsAfter(jobs, answer, tx, kind, now)| ==> JobSent(wallet, JobsAfter(jobs, answer, tx, kind, now)[i])
  {
    EnqueueRepeats(wallet, jobs, tx, kind, now);
    EnqueueRepeats(wallet, Enqueue(jobs, tx, kind, now), tx, kind, now);
  }

  /** The bets table changes only in status and win amount, and no closed bet reopens. */
  ghost predicate RowsAdvance(a: BetTable, b: BetTable) {
    && a.Keys == b.Keys
    && forall t :: t in a ==> SameBet(a[t], b[t]) && (!a[t].status.Placed? ==> !b[t].status.Placed?)
  }

  lemma StatusAdvances(bets: BetTable, txs: set<TxId>, status: BetStatus)
    requires !status.Placed?
    ensures RowsAdvance(bets, WithStatus(bets, txs, status))
  {}

  lemma SettlementAdvances(bets: BetTable, tx: TxId, winAmount: Option<real>)
    ensures RowsAdvance(bets, WithSettlement(bets, tx, winAmount))
  {}

  lemma PassStaysKnown(w: World, w': World)
    requires PassKnown(w) && RowsPlain(w) && RowsAdvance(w.bets, w'.bets)
    requires forall batch :: batch in w'.pass ==> batch in w.pass
    ensures PassKnown(w') && RowsPlain(w')
  {
    forall batch | batch in w'.pass ensures BatchKnown(w'.bets, batch) {
      assert BatchKnown(w.bets, batch);
    }
  }

  // ---------------------------------------------------------------- the two wallet calls

  ghost predicate NoActiveSession(w: World, txs: set<TxId>) {
    forall k :: k in w.sessions && w.sessions[k].isActive ==> w.sessions[k].txId !in txs
  }

  lemma CallSettleKeepsInv(w: World, tx: TxId, winAmount: real, stored: Option<real>, answer: Answer)
    requires Inv(w) && tx in w.bets && NoActiveSession(w, {tx})
    ensures var w' := CallSettle(w, tx, winAmount, stored, answer);
            InvBut(w', if answer.Accepted? then {tx} else {}) && w'.sessions == w.sessions
  {
    var w' := CallSettle(w, tx, winAmount, stored, answer);
    if !answer.NotSent? {
      StatusAdvances(w.bets, {tx}, SettlementFailed);
      PassStaysKnown(w, w');
      JobsAfterRepeats(w'.wallet, w.jobs, answer, tx, SettleJob(stored), w.now);
    }
  }

  lemma CallRefundKeepsInv(w: World, txns: seq<RefundTxn>, answer: Answer)
    requires Inv(w) && TxnIds(txns) <= w.bets.Keys && NoActiveSession(w, TxnIds(txns))
    ensures var w' := CallRefund(w, txns, answer);
            InvBut(w', if answer.Accepted? then TxnIds(txns) else {}) && w'.sessions == w.sessions
  {
    var w' := CallRefund(w, txns, answer);
    if !answer.NotSent? && txns != [] {
      StatusAdvances(w.bets, TxnIds(txns), SettlementFailed);
      PassStaysKnown(w, w');
      JobsAfterRepeats(w'.wallet, w.jobs, answer, txns[0].tx, RefundJob(txns), w.now);
    }
  }

  /** Closing the rows left open completes the flow. */
  lemma CloseRows(w: World, w': World, open: set<TxId>)
    requires InvBut(w, open) && RowsAdvance(w.bets, w'.bets)
    requires forall t :: t in open && t in w.bets ==> !w'.bets[t].status.Placed?
    requires w'.wallet == w.wallet && w'.pass == w.pass
    requires |w'.jobs| == |w.jobs| && forall i :: 0 <= i < |w.jobs| ==> w'.jobs[i].tx == w.jobs[i].tx && w'.jobs[i].kind == w.jobs[i].kind
    requires forall k :: k in w'.sessions ==> k in w.sessions && w'.sessions[k] == w.sessions[k]
    requires forall k :: k in w'.sessions && w'.sessions[k].isActive && w.bets[w'.sessions[k].txId].status.Placed? ==>
               w'.bets[w'.sessions[k].txId].status.Placed?
    ensures Inv(w')
  {
    PassStaysKnown(w, w');
    forall i | 0 <= i < |w'.jobs| ensures JobSent(w'.wallet, w'.jobs[i]) {
      assert JobSent(w.wallet, w.jobs[i]);
    }
  }

  // ---------------------------------------------------------------- the flows

  lemma AddRowKeepsInv(w: World, row: Bet, amount: real, coefficients: seq<real>)
    requires Inv(w) && row.txId !in w.bets && PlainIds(row)
    ensures Inv(AddRow(w, row, amount, coefficients))
  {
    var w' := AddRow(w, row, amount, coefficients);
    forall batch | batch in w'.pass ensures BatchKnown(w'.bets, batch) {
      assert BatchKnown(w.bets, batch);
    }
  }

  lemma AddSessionKeepsInv(w: World, key: string, s: Session)
    requires Inv(w) && s.txId in w.bets && HomeKey(w.bets[s.txId]) == key && w.bets[s.txId].status.Placed?
    ensures Inv(w.(sessions := w.sessions[key := s]))
  {}

  lemma PlaceBetKeepsInv(w: World, e: Event)
    requires Inv(w) && e.BetRequest? && Plausible(w, e)
    ensures Inv(Next(w, e))
  {
    var row, answer := e.row, e.answer;
    var key := SessionKey(row.userId, row.operatorId, e.gameCode);
    if !(key in w.sessions && w.sessions[key].isActive) && e.amount > 0.0 {
      var debited := w.(wallet := w.wallet.(debits := Apply(w.wallet.debits, map[row.txId := e.amount], AppliedTo(answer, {row.txId}))));
      assert Inv(debited);
      if answer.Accepted? && e.gameActive {
        AddRowKeepsInv(debited, row, e.amount, e.coefficients);
        var placed := AddRow(debited, row, e.amount, e.coefficients);
        if e.coefficients != [] {
          AddSessionKeepsInv(placed, key, NewSession(row.operatorId, row.txId, e.amount, e.coefficients));
        }
      }
    }
  }

  /** A bet request adds at most one open row and one debit; it sends no settlement and no refund. */
  lemma PlaceBetOnlyAdds(w: World, e: Event)
    requires e.BetRequest?
    ensures var w' := Next(w, e);
            && (w'.bets == w.bets ||
                (e.row.txId !in w.bets && e.row.txId in w'.bets && w'.bets[e.row.txId].status.Placed?
                 && w'.bets == w.bets[e.row.txId := w'.bets[e.row.txId]]))
            && (w'.wallet == w.wallet ||
                (e.row.txId !in w.wallet.debits && w'.wallet == w.wallet.(debits := w.wallet.debits[e.row.txId := e.amount])))
            && w'.jobs == w.jobs && w'.pass == w.pass
  {
    var applied := AppliedTo(e.answer, {e.row.txId});
    assert Apply(w.wallet.debits, map[e.row.txId := e.amount], applied) ==
           if e.row.txId in applied && e.row.txId !in w.wallet.debits then w.wallet.debits[e.row.txId := e.amount] else w.wallet.debits;
  }

  lemma SettleSessionKeepsInv(w: World, key: string, tx: TxId, winAmount: real, answer: Answer)
    requires Inv(w) && key in w.sessions && w.sessions[key].txId == tx && !w.sessions[key].isActive
    requires tx in w.bets && w.bets[tx].status.Placed?
    ensures Inv(SettleSession(w, key, tx, winAmount, answer))
  {
    var called := CallSettle(w, tx, winAmount, StoredWin(winAmount), answer);
    CallSettleKeepsInv(w, tx, winAmount, StoredWin(winAmount), answer);
    if answer.Accepted? {
      SettlementAdvances(called.bets, tx, Some(Fixed3(winAmount)));
      CloseRows(called, SettleSession(w, key, tx, winAmount, answer), {tx});
    }
  }

  lemma SessionUpdateKeepsInv(w: World, key: string, s': Session, games: map<TxId, GameRecord>)
    requires Inv(w) && key in w.sessions
    requires s'.txId == w.sessions[key].txId && (s'.isActive ==> w.sessions[key].isActive)
    ensures Inv(w.(sessions := w.sessions[key := s'], games := games))
  {
    var w' := w.(sessions := w.sessions[key := s'], games := games);
    assert w'.jobs == w.jobs && w'.pass == w.pass;
  }

  /** The end of a game: the finished session is saved, then settled. */
  lemma FinishKeepsInv(w: World, key: string, s': Session, games: map<TxId, GameRecord>, winAmount: real, answer: Answer)
    requires Inv(w) && key in w.sessions && w.sessions[key].isActive
    requires s'.txId == w.sessions[key].txId && !s'.isActive
    ensures Inv(SettleSession(w.(sessions := w.sessions[key := s'], games := games), key, s'.txId, winAmount, answer))
  {
    SessionUpdateKeepsInv(w, key, s', games);
    SettleSessionKeepsInv(w.(sessions := w.sessions[key := s'], games := games), key, s'.txId, winAmount, answer);
  }

  lemma StepKeepsInv(w: World, key: string, lineNumber: int, hazards: seq<int>, answer: Answer)
    requires Inv(w)
    ensures Inv(StepFlow(w, key, lineNumber, hazards, answer))
  {
    if key in w.sessions {
      var s := w.sessions[key];
      match TakeStep(s, lineNumber, hazards)
      case Advanced(s') => SessionUpdateKeepsInv(w, key, s', Recorded(w.games, s.txId, s'));
      case Ended(s', amount) => FinishKeepsInv(w, key, s', Recorded(w.games, s.txId, s'), amount, answer);
      case _ =>
    }
  }

  lemma CashOutKeepsInv(w: World, key: string, answer: Answer)
    requires Inv(w)
    ensures Inv(CashOutFlow(w, key, answer))
  {
    if key in w.sessions && w.sessions[key].isActive {
      var s := w.sessions[key];
      var closed := w.sessions[key := CloseForCashOut(s)];
      assert w.(sessions := closed, games := w.games) == w.(sessions := closed);
      FinishKeepsInv(w, key, CloseForCashOut(s), w.games, s.winAmount, answer);
    }
  }

  lemma RefundTxnIds(batch: seq<Bet>)
    ensures TxnIds(RefundTxns(batch)) == TxIds(batch)
    ensures batch != [] ==> RefundTxns(batch) != []
  {
    var txns := RefundTxns(batch);
    forall t | t in TxIds(batch) ensures t in TxnIds(txns) {
      var i :| 0 <= i < |batch| && batch[i].txId == t;
      assert txns[i] in txns;
    }
  }

  /** The part of a session key that holds the two ids. */
  function KeyBody(key: string, gameCode: string): string
    requires |key| >= |gameCode| + 13
  {
    key[12..|key| - |gameCode| - 1]
  }

  lemma KeyBodyOf(u: string, o: string, gameCode: string)
    ensures |SessionKey(u, o, gameCode)| >= |gameCode| + 13
    ensures KeyBody(SessionKey(u, o, gameCode), gameCode) == u + "-" + o
  {
    var key := SessionKey(u, o, gameCode);
    assert key == "gameSession:" + (u + "-" + o) + ("-" + gameCode);
  }

  /** The guard of the refund pass looks exactly where the session of the bet lies, when ids carry no colon. */
  lemma LookupIsHome(bet: Bet)
    ensures LookupKey(bet) == HomeKey(bet) <==> PlainIds(bet)
  {
    GroupKeyRoundTrip(bet);
    if !PlainIds(bet) {
      var (u, o) := ParseKey(GroupKey(bet));
      BeforeProperties(':', GroupKey(bet));
      BeforeProperties(':', After(':', GroupKey(bet)));
      KeyBodyOf(u, o, bet.gameCode);
      KeyBodyOf(bet.userId, bet.operatorId, bet.gameCode);
      assert ':' !in u + "-" + o;
      assert ':' in bet.userId + "-" + bet.operatorId;
    }
  }

  /** A batch that is not skipped has no active session for any of its bets. */
  lemma UnskippedHasNoSession(w: World, batch: seq<Bet>)
    requires SessionsAtHome(w) && RowsPlain(w) && BatchKnown(w.bets, batch) && !BatchIsSkipped(w.sessions, batch)
    ensures NoActiveSession(w, TxIds(batch))
  {
    forall k | k in w.sessions && w.sessions[k].isActive && w.sessions[k].txId in TxIds(batch) ensures false {
      var b :| b in batch && b.txId == w.sessions[k].txId;
      LookupIsHome(b);
      assert SessionExistsForBet(w.sessions, b);
    }
  }

  lemma RefundBatchKeepsInv(w: World, batch: seq<Bet>, answer: Answer)
    requires Inv(w) && BatchKnown(w.bets, batch)
    ensures Inv(RefundBatch(w, batch, answer))
  {
    if !BatchIsSkipped(w.sessions, batch) {
      RefundTxnIds(batch);
      UnskippedHasNoSession(w, batch);
      CallRefundKeepsInv(w, RefundTxns(batch), answer);
      if answer.Accepted? {
        StatusAdvances(w.bets, TxIds(batch), Refunded);
        CloseRows(CallRefund(w, RefundTxns(batch), answer), RefundBatch(w, batch, answer), TxIds(batch));
      }
    }
  }

  lemma RowChangeKeepsInv(w: World, j: nat, row: JobRow)
    requires Inv(w) && j < |w.jobs|
    ensures Inv(w.(jobs := WithJobRow(w.jobs, j, row)))
  {
    CloseRows(w, w.(jobs := WithJobRow(w.jobs, j, row)), {});
  }

  /** A call only appends to the list of jobs. */
  lemma CallKeepsJobs(w: World, job: Job, answer: Answer)
    ensures |CallAgain(w, job, answer).jobs| >= |w.jobs|
    ensures forall i :: 0 <= i < |w.jobs| ==> CallAgain(w, job, answer).jobs[i] == w.jobs[i]
  {}

  lemma CallAdvancesRows(w: World, job: Job, answer: Answer)
    ensures RowsAdvance(w.bets, CallAgain(w, job, answer).bets)
  {
    match job.kind
    case SettleJob(stored) => StatusAdvances(w.bets, {job.tx}, SettlementFailed);
    case RefundJob(txns) => StatusAdvances(w.bets, TxnIds(txns), SettlementFailed);
  }

  /** The bets a retry touches were closed before it, so the call leaves no row open. */
  lemma RetryLeavesNoneOpen(w: World, job: Job, answer: Answer, open: set<TxId>)
    requires Inv(w) && open <= w.wallet.settleSent + w.wallet.cancelSent
    requires InvBut(CallAgain(w, job, answer), open)
    ensures Inv(CallAgain(w, job, answer))
  {
    CallAdvancesRows(w, job, answer);
    var called := CallAgain(w, job, answer);
    forall t | t in called.wallet.settleSent || t in called.wallet.cancelSent
      ensures t in called.bets && !called.bets[t].status.Placed?
    {
      if t in open { assert !w.bets[t].status.Placed?; }
    }
  }

  /** The call of a retry repeats a request, so it keeps the invariant. */
  lemma CallAgainKeepsInv(w: World, job: Job, answer: Answer)
    requires Inv(w) && JobSent(w.wallet, job)
    ensures Inv(CallAgain(w, job, answer)) && JobSent(CallAgain(w, job, answer).wallet, job)
  {
    match job.kind
    case SettleJob(stored) =>
      CallSettleKeepsInv(w, job.tx, WinToSend(stored), StoredWin(WinToSend(stored)), answer);
      RetryLeavesNoneOpen(w, job, answer, if answer.Accepted? then {job.tx} else {});
    case RefundJob(txns) =>
      CallRefundKeepsInv(w, txns, answer);
      RetryLeavesNoneOpen(w, job, answer, if answer.Accepted? then TxnIds(txns) else {});
  }

  lemma RetryRowAdvances(w: World, job: Job, rowWritten: bool)
    ensures RowsAdvance(w.bets, RowAfterRetry(w.bets, job, rowWritten))
  {
    match job.kind
    case SettleJob(stored) => SettlementAdvances(w.bets, job.tx, stored);
    case RefundJob(_) => StatusAdvances(w.bets, {job.tx}, Refunded);
  }

  lemma RetryRowKeepsInv(w: World, job: Job, rowWritten: bool)
    requires Inv(w) && JobSent(w.wallet, job)
    ensures Inv(w.(bets := RowAfterRetry(w.bets, job, rowWritten)))
  {
    RetryRowAdvances(w, job, rowWritten);
    var w' := w.(bets := RowAfterRetry(w.bets, job, rowWritten));
    assert job.tx in w.wallet.settleSent + w.wallet.cancelSent by {
      if job.kind.RefundJob? {
        assert job.kind.txns[0] in job.kind.txns;
      }
    }
    assert job.tx in w.bets && !w.bets[job.tx].status.Placed?;
    CloseRows(w, w', {});
  }

  lemma RetryKeepsInv(w: World, j: nat, answer: Answer, rowWritten: bool, end: RunEnd)
    requires Inv(w)
    ensures Inv(RetryRun(w, j, answer, rowWritten, end))
  {
    if j < |w.jobs| && Active(w.jobs[j]) {
      var job := w.jobs[j];
      var started := w.(jobs := WithJobStatus(w.jobs, j, Processing));
      RowChangeKeepsInv(w, j, w.jobs[j].row.(status := Processing));
      assert JobSent(started.wallet, job);
      var called := CallAgain(started, job, answer);
      CallAgainKeepsInv(started, job, answer);
      CallKeepsJobs(started, job, answer);
      RetryRowKeepsInv(called, job, rowWritten);
      if end.Completed? {
        var updated := if answer.Accepted? then called.(bets := RowAfterRetry(called.bets, job, rowWritten)) else called;
        RowChangeKeepsInv(updated, j, RowAfterRun(updated.jobs[j].row, answer, w.now));
      }
    }
  }

  lemma {:induction false} FlattenMembers(batches: seq<seq<Bet>>, batch: seq<Bet>, b: Bet)
    requires batch in batches && b in batch
    ensures b in Flatten(batches)
  {
    if batch != batches[0] {
      FlattenMembers(batches[1..], batch, b);
    }
  }

  /** The batches of a listing hold only listed bets. */
  lemma BatchesHoldListed(listed: seq<Bet>)
    ensures forall batch, b :: batch in Batches(listed) && b in batch ==> b in listed
  {
    BatchesPartition(listed);
    forall batch, b | batch in Batches(listed) && b in batch ensures b in listed {
      FlattenMembers(Batches(listed), batch, b);
      assert b in multiset(Flatten(Batches(listed)));
    }
  }

  lemma ReadKeepsInv(w: World, listed: seq<Bet>)
    requires Inv(w) && Plausible(w, ReadOldBets(listed))
    ensures Inv(Next(w, ReadOldBets(listed)))
  {
    var w' := Next(w, ReadOldBets(listed));
    BatchesPartition(listed);
    BatchesHoldListed(listed);
    forall batch | batch in w'.pass ensures BatchKnown(w'.bets, batch) {
      if batch in w.pass {
        assert BatchKnown(w.bets, batch);
      } else {
        assert WellFormedBatch(batch);
      }
    }
  }

  lemma PassShrinksKeepsInv(w: World)
    requires Inv(w) && w.pass != []
    ensures Inv(w.(pass := w.pass[1..])) && BatchKnown(w.bets, w.pass[0])
  {
    PassStaysKnown(w, w.(pass := w.pass[1..]));
  }

  lemma NextBatchKeepsInv(w: World, answer: Answer)
    requires Inv(w)
    ensures Inv(Next(w, NextBatch(answer)))
  {
    if w.pass != [] {
      PassShrinksKeepsInv(w);
      RefundBatchKeepsInv(w.(pass := w.pass[1..]), w.pass[0], answer);
    }
  }

  /** Every step keeps the invariant, whatever became of the bets of a batch since they were listed. */
  lemma NextKeepsInv(w: World, e: Event)
    requires Inv(w) && Plausible(w, e)
    ensures Inv(Next(w, e))
  {
    match e
    case BetRequest(_, _, _, _, _, _) => PlaceBetKeepsInv(w, e);
    case StepRequest(key, lineNumber, hazards, answer) => StepKeepsInv(w, key, lineNumber, hazards, answer);
    case CashOutRequest(key, answer) => CashOutKeepsInv(w, key, answer);
    case ReadOldBets(listed) => ReadKeepsInv(w, listed);
    case NextBatch(answer) => NextBatchKeepsInv(w, answer);
    case DropBatch => if w.pass != [] { PassShrinksKeepsInv(w); }
    case Retry(j, answer, rowWritten, end) => RetryKeepsInv(w, j, answer, rowWritten, end);
    case Expire(_) =>
    case Flush =>
    case Tick(_) =>
  }

  // ---------------------------------------------------------------- who sends what

  /** The transactions a job touches. */
  function JobTxs(job: Job): set<TxId> {
    match job.kind
    case SettleJob(_) => {job.tx}
    case RefundJob(txns) => TxnIds(txns)
  }

  lemma JobTxsSent(w: World, job: Job)
    requires JobSent(w.wallet, job)
    ensures JobTxs(job) <= if job.kind.SettleJob? then w.wallet.settleSent else w.wallet.cancelSent
    ensures job.tx in JobTxs(job)
  {
    if job.kind.RefundJob? {
      assert job.kind.txns[0] in job.kind.txns;
    }
  }

  predicate Failing(answer: Answer) {
    answer.Declined? || answer.Lost?
  }

  /** What the call of a retry does: it sends nothing new, and to the rows of its bets nothing, or it marks them failed. */
  lemma CallAgainRepeats(w: World, job: Job, answer: Answer)
    requires JobSent(w.wallet, job)
    ensures var called := CallAgain(w, job, answer);
            && called.wallet.settleSent == w.wallet.settleSent && called.wallet.cancelSent == w.wallet.cancelSent
            && called.bets == if Failing(answer) then WithStatus(w.bets, JobTxs(job), SettlementFailed) else w.bets
  {
    JobTxsSent(w, job);
  }

  lemma RetrySendsNothingNew(w: World, j: nat, answer: Answer, rowWritten: bool, end: RunEnd)
    requires Inv(w)
    ensures var w' := RetryRun(w, j, answer, rowWritten, end);
            w'.wallet.settleSent == w.wallet.settleSent && w'.wallet.cancelSent == w.wallet.cancelSent && w'.pass == w.pass
  {
    if j < |w.jobs| && Active(w.jobs[j]) {
      assert JobSent(w.wallet, w.jobs[j]);
      CallAgainRepeats(w.(jobs := WithJobStatus(w.jobs, j, Processing)), w.jobs[j], answer);
    }
  }

  /** A step or a cash-out sends at most the settlement of a bet that is still open, and no refund. */
  lemma SettlePathsSendOpen(w: World, e: Event)
    requires Inv(w) && (e.StepRequest? || e.CashOutRequest?)
    ensures var w' := Next(w, e);
            && w'.wallet.cancelSent == w.wallet.cancelSent && w'.pass == w.pass
            && w.wallet.settleSent <= w'.wallet.settleSent
            && forall t :: t in w'.wallet.settleSent - w.wallet.settleSent ==> t in w.bets && w.bets[t].status.Placed?
  {
    if e.key in w.sessions && w.sessions[e.key].isActive {
      var s := w.sessions[e.key];
      assert s.txId in w.bets && w.bets[s.txId].status.Placed?;
      match e {
        case StepRequest(key, lineNumber, hazards, answer) =>
          var w' := StepFlow(w, key, lineNumber, hazards, answer);
          assert w'.wallet.settleSent <= w.wallet.settleSent + {s.txId};
        case CashOutRequest(key, answer) =>
          var w' := CashOutFlow(w, key, answer);
          assert w'.wallet.settleSent <= w.wallet.settleSent + {s.txId};
      }
    }
  }

  /** A batch sends the refunds of its bets, or nothing at all. */
  lemma BatchSends(w: World, e: Event)
    requires Inv(w) && e.NextBatch? && w.pass != []
    ensures var w' := Next(w, e);
            && w'.wallet.settleSent == w.wallet.settleSent && w'.pass == w.pass[1..]
            && w'.wallet.cancelSent == w.wallet.cancelSent + (if SendsBatch(w, e) then TxIds(w.pass[0]) else {})
            && (!SendsBatch(w, e) ==> w' == w.(pass := w.pass[1..]))
  {
    assert BatchKnown(w.bets, w.pass[0]);
    RefundTxnIds(w.pass[0]);
  }

  // ---------------------------------------------------------------- both requests for one transaction

  /** No transaction has had both a settle and a cancelBet request sent for it. */
  ghost predicate Exclusive(w: World) {
    w.wallet.settleSent !! w.wallet.cancelSent
  }

  /** This step sends the refund of a bet whose settlement has been requested before. */
  ghost predicate RefundsSettled(w: World, e: Event) {
    SendsBatch(w, e) && exists b :: b in w.pass[0] && b.txId in w.wallet.settleSent
  }

  ghost predicate NeverRefundsSettled(w: World, es: seq<Event>)
    decreases |es|
  {
    es == [] || (!RefundsSettled(w, es[0]) && NeverRefundsSettled(Next(w, es[0]), es[1..]))
  }

  /** A step makes a transaction both settled and cancelled exactly when it refunds a batch with a settled bet in it. */
  lemma StepIsSafeIff(w: World, e: Event)
    requires Inv(w) && Plausible(w, e)
    ensures Exclusive(Next(w, e)) <==> Exclusive(w) && !RefundsSettled(w, e)
  {
    match e
    case BetRequest(_, _, _, _, _, _) => PlaceBetOnlyAdds(w, e);
    case StepRequest(_, _, _, _) => SettlePathsSendOpen(w, e);
    case CashOutRequest(_, _) => SettlePathsSendOpen(w, e);
    case NextBatch(answer) => if w.pass != [] { BatchSends(w, e); }
    case Retry(j, answer, rowWritten, end) => RetrySendsNothingNew(w, j, answer, rowWritten, end);
    case _ =>
  }

  /** In every run, no transaction is both settled and cancelled exactly when no batch with a settled bet is ever sent. */
  lemma {:induction false} RunIsSafeIff(w: World, es: seq<Event>)
    requires Inv(w) && PlausibleRun(w, es)
    ensures Inv(Run(w, es))
    ensures Exclusive(Run(w, es)) <==> Exclusive(w) && NeverRefundsSettled(w, es)
    decreases |es|
  {
    if es != [] {
      NextKeepsInv(w, es[0]);
      StepIsSafeIff(w, es[0]);
      RunIsSafeIff(Next(w, es[0]), es[1..]);
    }
  }

  /** An open bet has had no settlement requested, so a fresh batch holds none. */
  lemma {:induction false} FreshIsUnsettled(w: World, es: seq<Event>)
    requires Inv(w) && PlausibleRun(w, es) && SendsOnlyFresh(w, es)
    ensures NeverRefundsSettled(w, es)
    decreases |es|
  {
    if es != [] {
      NextKeepsInv(w, es[0]);
      FreshIsUnsettled(Next(w, es[0]), es[1..]);
    }
  }

  /** So no run whose batches are fresh when they are sent settles and cancels a transaction. */
  lemma NeverSettledAndCancelled(w: World, es: seq<Event>)
    requires Inv(w) && Exclusive(w) && PlausibleRun(w, es) && SendsOnlyFresh(w, es)
    ensures Inv(Run(w, es)) && Exclusive(Run(w, es))
  {
    FreshIsUnsettled(w, es);
    RunIsSafeIff(w, es);
  }

  lemma InitSatisfiesInv()
    ensures Inv(Init()) && Exclusive(Init())
  {}
}
