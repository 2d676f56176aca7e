/** Wallet conservation: what a bet nets in every reachable state, and exactly when it is booked both ways. */
module ProtocolConservation {
  import opened Common
  import opened GameSession
  import opened Bets
  import opened RefundBatches
  import opened Protocol
  import opened ProtocolMoney
  import opened ProtocolSafety

  /** The net amount on the agent's books for a transaction. */
  function Net(wallet: Wallet, t: TxId): real {
    (if t in wallet.credits then wallet.credits[t] else 0.0)
    + (if t in wallet.refunds then wallet.refunds[t] else 0.0)
    - (if t in wallet.debits then wallet.debits[t] else 0.0)
  }

  // ---------------------------------------------------------------- credit and refund of one bet

  /** No bet is both credited and refunded on the agent's books. */
  ghost predicate BookedOnce(w: World) {
    w.wallet.credits.Keys !! w.wallet.refunds.Keys
  }

  /** The agent applies the refund of a bet that it has credited. */
  ghost predicate RefundsCredited(w: World, e: Event) {
    SendsBatch(w, e) && exists t :: t in AppliedTo(e.answer, TxIds(w.pass[0])) && t in w.wallet.credits
  }

  /** What the books hold of the other kind than the job's request. */
  function OtherSide(wallet: Wallet, job: Job): set<TxId> {
    if job.kind.SettleJob? then wallet.refunds.Keys else wallet.credits.Keys
  }

  /** A retry has its request applied for a bet that is booked the other way. */
  ghost predicate RetryBooksOther(w: World, e: Event) {
    && e.Retry? && e.job < |w.jobs| && Active(w.jobs[e.job]) && !e.end.DiesBeforeCall?
    && exists t :: t in AppliedTo(e.answer, JobTxs(w.jobs[e.job])) && t in OtherSide(w.wallet, w.jobs[e.job])
  }

  lemma ApplyKeys(book: map<TxId, real>, amounts: map<TxId, real>, applied: set<TxId>)
    requires applied <= amounts.Keys
    ensures Apply(book, amounts, applied).Keys == book.Keys + applied
  {}

  lemma CallSettleBooks(w: World, tx: TxId, winAmount: real, stored: Option<real>, answer: Answer)
    ensures var wallet := CallSettle(w, tx, winAmount, stored, answer).wallet;
            wallet.credits.Keys == w.wallet.credits.Keys + AppliedTo(answer, {tx}) && wallet.refunds == w.wallet.refunds
  {}

  lemma CallRefundBooks(w: World, txns: seq<RefundTxn>, answer: Answer)
    ensures var wallet := CallRefund(w, txns, answer).wallet;
            wallet.refunds.Keys == w.wallet.refunds.Keys + AppliedTo(answer, TxnIds(txns)) && wallet.credits == w.wallet.credits
  {
    AmountsKeys(txns);
    ApplyKeys(w.wallet.refunds, Amounts(txns), AppliedTo(answer, TxnIds(txns)));
  }

  lemma SettleSessionBooks(w: World, key: string, tx: TxId, winAmount: real, answer: Answer)
    ensures var wallet := SettleSession(w, key, tx, winAmount, answer).wallet;
            wallet.credits.Keys == w.wallet.credits.Keys + AppliedTo(answer, {tx}) && wallet.refunds == w.wallet.refunds
  {
    CallSettleBooks(w, tx, winAmount, StoredWin(winAmount), answer);
  }

  /** A step or a cash-out credits at most a bet that is still open, and refunds none. */
  lemma SettlePathsBookOpen(w: World, e: Event)
    requires Inv(w) && (e.StepRequest? || e.CashOutRequest?)
    ensures var w' := Next(w, e);
            && w'.wallet.refunds == w.wallet.refunds && w.wallet.credits.Keys <= w'.wallet.credits.Keys
            && forall t :: t in w'.wallet.credits.Keys - w.wallet.credits.Keys ==> t in w.bets && w.bets[t].status.Placed?
  {
    if e.key in w.sessions && w.sessions[e.key].isActive {
      var s := w.sessions[e.key];
      assert s.txId in w.bets && w.bets[s.txId].status.Placed?;
      if e.CashOutRequest? {
        SettleSessionBooks(w.(sessions := w.sessions[e.key := CloseForCashOut(s)]), e.key, s.txId, s.winAmount, e.answer);
      } else {
        match TakeStep(s, e.lineNumber, e.hazards)
        case Ended(s', amount) =>
          var saved := w.(sessions := w.sessions[e.key := s'], games := Recorded(w.games, s.txId, s'));
          SettleSessionBooks(saved, e.key, s.txId, amount, e.answer);
        case _ =>
      }
    }
  }

  lemma BatchBooks(w: World, e: Event)
    requires Inv(w) && e.NextBatch? && w.pass != []
    ensures var wallet := Next(w, e).wallet;
            && wallet.credits == w.wallet.credits
            && wallet.refunds.Keys == w.wallet.refunds.Keys + (if SendsBatch(w, e) then AppliedTo(e.answer, TxIds(w.pass[0])) else {})
  {
    BatchSends(w, e);
    RefundTxnIds(w.pass[0]);
    CallRefundBooks(w.(pass := w.pass[1..]), RefundTxns(w.pass[0]), e.answer);
  }

  /** A retry adds what the agent applies of its request to its own side of the books. */
  lemma RetryBooks(w: World, e: Event)
    requires e.Retry?
    ensures var wallet := Next(w, e).wallet;
            if e.job < |w.jobs| && Active(w.jobs[e.job]) && !e.end.DiesBeforeCall?
            then
              var applied := AppliedTo(e.answer, JobTxs(w.jobs[e.job]));
              if w.jobs[e.job].kind.SettleJob?
              then wallet.credits.Keys == w.wallet.credits.Keys + applied && wallet.refunds == w.wallet.refunds
              else wallet.refunds.Keys == w.wallet.refunds.Keys + applied && wallet.credits == w.wallet.credits
            else wallet == w.wallet
  {
    if e.job < |w.jobs| && Active(w.jobs[e.job]) && !e.end.DiesBeforeCall? {
      var started := w.(jobs := WithJobStatus(w.jobs, e.job, Processing));
      match w.jobs[e.job].kind
      case SettleJob(stored) =>
        CallSettleBooks(started, w.jobs[e.job].tx, WinToSend(stored), StoredWin(WinToSend(stored)), e.answer);
      case RefundJob(txns) => CallRefundBooks(started, txns, e.answer);
    }
  }

  /** A bet becomes booked both ways exactly when a batch refunds a credited bet or a retry repeats the other request. */
  lemma StepBooksOnceIff(w: World, e: Event)
    requires Inv(w) && Booked(w) && Plausible(w, e)
    ensures BookedOnce(Next(w, e)) <==> BookedOnce(w) && !RefundsCredited(w, e) && !RetryBooksOther(w, e)
  {
    match e
    case BetRequest(_, _, _, _, _, _) => PlaceBetOnlyAdds(w, e);
    case StepRequest(_, _, _, _) => SettlePathsBookOpen(w, e); OpenIsUnbooked(w);
    case CashOutRequest(_, _) => SettlePathsBookOpen(w, e); OpenIsUnbooked(w);
    case NextBatch(answer) => if w.pass != [] { BatchBooks(w, e); }
    case Retry(_, _, _, _) => RetryBooks(w, e);
    case _ =>
  }

  /** Nothing has been credited or refunded for an open bet. */
  lemma OpenIsUnbooked(w: World)
    requires Inv(w) && Booked(w)
    ensures forall t :: t in w.bets && w.bets[t].status.Placed? ==> t !in w.wallet.credits && t !in w.wallet.refunds
  {
    forall t | t in w.bets && w.bets[t].status.Placed? ensures t !in w.wallet.credits && t !in w.wallet.refunds {
      assert BetBooked(w, t);
    }
  }

  /** Whatever the agent answers, a batch books no bet both ways exactly when none of its bets has been credited. */
  lemma AnyAnswerBooksOnceIff(w: World)
    requires Inv(w) && Booked(w) && BookedOnce(w) && w.pass != [] && !BatchIsSkipped(w.sessions, w.pass[0])
    ensures (forall answer :: BookedOnce(Next(w, NextBatch(answer)))) <==> forall b :: b in w.pass[0] ==> b.txId !in w.wallet.credits
  {
    forall answer ensures BookedOnce(Next(w, NextBatch(answer))) <==> !RefundsCredited(w, NextBatch(answer)) {
      StepBooksOnceIff(w, NextBatch(answer));
    }
    assert BookedOnce(Next(w, NextBatch(Accepted))) <==> !RefundsCredited(w, NextBatch(Accepted));
    if b :| b in w.pass[0] && b.txId in w.wallet.credits {
      assert b.txId in TxIds(w.pass[0]);
    }
  }

  /** Whatever the agent answers, a retry books no bet both ways exactly when none of its bets is booked the other way. */
  lemma AnyRetryBooksOnceIff(w: World, j: nat)
    requires Inv(w) && Booked(w) && BookedOnce(w) && j < |w.jobs| && Active(w.jobs[j])
    ensures (forall answer, rowWritten, end :: BookedOnce(Next(w, Retry(j, answer, rowWritten, end)))) <==>
            JobTxs(w.jobs[j]) !! OtherSide(w.wallet, w.jobs[j])
  {
    forall answer, rowWritten, end
      ensures BookedOnce(Next(w, Retry(j, answer, rowWritten, end))) <==> !RetryBooksOther(w, Retry(j, answer, rowWritten, end))
    {
      StepBooksOnceIff(w, Retry(j, answer, rowWritten, end));
    }
    var clean := Retry(j, Accepted, true, Completed);
    assert BookedOnce(Next(w, clean)) <==> !RetryBooksOther(w, clean);
  }

  ghost predicate NeverBooksTwice(w: World, es: seq<Event>)
    decreases |es|
  {
    es == [] || (!RefundsCredited(w, es[0]) && !RetryBooksOther(w, es[0]) && NeverBooksTwice(Next(w, es[0]), es[1..]))
  }

  /** Over every run, no bet is credited and refunded exactly when no such step occurs. */
  lemma {:induction false} RunBooksOnceIff(w: World, es: seq<Event>)
    requires MoneyInv(w) && PlausibleRun(w, es)
    ensures BookedOnce(Run(w, es)) <==> BookedOnce(w) && NeverBooksTwice(w, es)
    decreases |es|
  {
    if es != [] {
      NextKeepsMoney(w, es[0]);
      StepBooksOnceIff(w, es[0]);
      RunBooksOnceIff(Next(w, es[0]), es[1..]);
    }
  }

  lemma BooksNeedRequests(w: World)
    requires Booked(w)
    ensures w.wallet.credits.Keys <= w.wallet.settleSent && w.wallet.refunds.Keys <= w.wallet.cancelSent
  {
    forall t | t in w.bets
      ensures (t in w.wallet.credits ==> t in w.wallet.settleSent) && (t in w.wallet.refunds ==> t in w.wallet.cancelSent)
    {
      assert BetBooked(w, t);
    }
  }

  /** Runs whose batches are fresh when they are sent are among them. */
  lemma FreshRunBooksOnce(w: World, es: seq<Event>)
    requires MoneyInv(w) && Exclusive(w) && PlausibleRun(w, es) && SendsOnlyFresh(w, es)
    ensures BookedOnce(Run(w, es))
  {
    RunKeepsMoney(w, es);
    NeverSettledAndCancelled(w, es);
    BooksNeedRequests(Run(w, es));
  }

  // ---------------------------------------------------------------- what a bet nets

  /** The credit of a bet, if any. */
  function Credit(wallet: Wallet, t: TxId): real {
    if t in wallet.credits then wallet.credits[t] else 0.0
  }

  /**
   * In every state any run reaches, a bet nets minus its stake, plus what its game is worth once it has been credited, plus
   * the refunded stake to within half a thousandth; its row tells a credit or a refund. Of the two there is only one as
   * long as no step books a bet twice.
   */
  lemma Conservation(es: seq<Event>, t: TxId)
    requires PlausibleRun(Init(), es)
    requires t in Run(Init(), es).bets
    ensures var w := Run(Init(), es);
            && t in w.games && w.games[t].cleared <= |w.games[t].coefficients|
            && RowAgrees(w.wallet, w.games, w.bets[t], t)
            && (t in w.wallet.credits ==> PaysWorth(w.games[t], Credit(w.wallet, t)))
            && (var stake, net := w.games[t].stake, Net(w.wallet, t);
                if t in w.wallet.refunds then net == Credit(w.wallet, t) + (Fixed3(stake) - stake) && -0.5 < 1000.0 * (Fixed3(stake) - stake) <= 0.5
                else net == Credit(w.wallet, t) - stake)
            && (NeverBooksTwice(Init(), es) ==> !(t in w.wallet.credits && t in w.wallet.refunds))
  {
    InitSatisfiesMoney();
    RunKeepsMoney(Init(), es);
    RunBooksOnceIff(Init(), es);
    assert BetBooked(Run(Init(), es), t);
    RoundToIsNearest(Run(Init(), es).games[t].stake, 1000);
  }

  /** For amounts that fit the stored columns the net is exact, and while the bet is booked one way its row tells it. */
  lemma ExactConservation(es: seq<Event>, t: TxId)
    requires PlausibleRun(Init(), es)
    requires t in Run(Init(), es).bets && t in Run(Init(), es).games
    requires var game := Run(Init(), es).games[t];
             game.cleared <= |game.coefficients| && IsExact(game.stake, 1000) && IsExact(Worth(game), 10000)
    ensures var w := Run(Init(), es);
            var net, game := Net(w.wallet, t), w.games[t];
            && net == (if t in w.wallet.credits then Worth(game) else 0.0) + (if t in w.wallet.refunds then game.stake else 0.0) - game.stake
            && (!(t in w.wallet.credits && t in w.wallet.refunds) ==>
                  match w.bets[t].status
                  case Placed => net == -game.stake
                  case Refunded => net == 0.0
                  case Won => net == Worth(game) - game.stake
                  case Lost => net == Worth(game) - game.stake
                  case _ => net == -game.stake || net == 0.0 || net == Worth(game) - game.stake)
  {
    var w := Run(Init(), es);
    InitSatisfiesMoney();
    RunKeepsMoney(Init(), es);
    Conservation(es, t);
    OpenIsUnbooked(w);
    RoundToExact(w.games[t].stake, 1000);
    RoundToExact(Worth(w.games[t]), 10000);
    assert RowsAgree(w) && BetBooked(w, t);
  }

  /** Only a bet row makes money come back: a stake debited without a row nets exactly that stake. */
  lemma NoRowNoCredit(es: seq<Event>, t: TxId)
    requires PlausibleRun(Init(), es)
    requires t !in Run(Init(), es).bets && t in Run(Init(), es).wallet.debits
    ensures Net(Run(Init(), es).wallet, t) == -Run(Init(), es).wallet.debits[t]
  {
    InitSatisfiesMoney();
    RunKeepsMoney(Init(), es);
  }

  lemma InitSatisfiesMoney()
    ensures MoneyInv(Init()) && BookedOnce(Init())
  {}

  /** A retried settlement carries the same amount as the direct one exactly when that amount fits four decimals. */
  lemma RetriedAmountExactIff(winAmount: real)
    ensures WinToSend(StoredWin(winAmount)) == winAmount <==> IsExact(winAmount, 10000)
  {
    RoundToExact(winAmount, 10000);
  }
}
