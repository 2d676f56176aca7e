/** Runs in which the promises fail: a refund pass that meets a settled bet, and ids that defeat its guard. */
module ProtocolFailures {
  import opened Common
  import opened GameSession
  import opened Bets
  import opened RefundBatches
  import opened Protocol
  import opened ProtocolConservation
  import opened ProtocolLimits
  import opened ProtocolSafety

  // ---------------------------------------------------------------- ids with a colon

  /** The row a bet flow stores. */
  function StoredRow(row: Bet, amount: real): Bet {
    row.(betAmount := Fixed3(amount), status := Placed, winAmount := None)
  }

  /** A bet, a refund pass while its session is active, and a cash-out, all accepted by the agent. */
  function RefundDuringPlay(row: Bet, amount: real, coefficients: seq<real>): seq<Event> {
    [BetRequest(row.gameCode, row, amount, coefficients, true, Accepted),
     ReadOldBets([StoredRow(row, amount)]),
     NextBatch(Accepted),
     CashOutRequest(HomeKey(row), Accepted)]
  }

  lemma SingleBatch(bet: Bet)
    ensures Batches([bet]) == [[bet]]
  {
    assert [bet][..0] == [];
    InGroupOne(bet, GroupKey(bet));
    assert FirstKeys([bet]) == [GroupKey(bet)];
    assert [GroupKey(bet)][..0] == [];
    assert BatchesOf([bet], []) == [];
  }

  lemma RunOfFour(w: World, a: Event, b: Event, c: Event, d: Event)
    ensures Run(w, [a, b, c, d]) == Next(Next(Next(Next(w, a), b), c), d)
  {
    assert [a, b, c, d] == [a] + ([b] + ([c] + ([d] + [])));
    RunOfCons(w, a, [b] + ([c] + ([d] + [])));
    RunOfCons(Next(w, a), b, [c] + ([d] + []));
    RunOfCons(Next(Next(w, a), b), c, [d] + []);
    RunOfCons(Next(Next(Next(w, a), b), c), d, []);
  }

  /** The state in which the bet is in play and the refund pass has listed it. */
  function InPlay(row: Bet, amount: real, coefficients: seq<real>): World {
    Init().(sessions := map[HomeKey(row) := NewSession(row.operatorId, row.txId, amount, coefficients)],
            bets := map[row.txId := StoredRow(row, amount)],
            wallet := Wallet({}, {}, map[row.txId := amount], map[], map[]),
            pass := [[StoredRow(row, amount)]],
            games := map[row.txId := GameRecord(amount, coefficients, 0, false)])
  }

  lemma BetThenRead(row: Bet, amount: real, coefficients: seq<real>)
    requires amount > 0.0 && coefficients != []
    ensures var es := RefundDuringPlay(row, amount, coefficients);
            Next(Next(Init(), es[0]), es[1]) == InPlay(row, amount, coefficients)
  {
    SingleBatch(StoredRow(row, amount));
    assert Apply(map[], map[row.txId := amount], {row.txId}) == map[row.txId := amount];
  }

  /** The pass refunds the bet in play exactly when one of its ids contains a colon, and leaves its session alone. */
  lemma RefundOfBetInPlay(row: Bet, amount: real, coefficients: seq<real>)
    ensures var w := InPlay(row, amount, coefficients);
            var refunded := Next(w, NextBatch(Accepted));
            && refunded.sessions == w.sessions && refunded.wallet.settleSent == {}
            && refunded.wallet.cancelSent == if PlainIds(row) then {} else {row.txId}
  {
    var bet, w := StoredRow(row, amount), InPlay(row, amount, coefficients);
    LookupIsHome(bet);
    assert BatchIsSkipped(w.sessions, [bet]) <==> PlainIds(row) by {
      assert bet in [bet];
    }
    RefundTxnIds([bet]);
  }

  /** The session check protects a bet in play exactly when neither of its ids contains a colon. */
  lemma RefundDuringPlaySafeIff(row: Bet, amount: real, coefficients: seq<real>)
    requires amount > 0.0 && coefficients != []
    ensures Exclusive(Run(Init(), RefundDuringPlay(row, amount, coefficients))) <==> PlainIds(row)
  {
    var es := RefundDuringPlay(row, amount, coefficients);
    RunOfFour(Init(), es[0], es[1], es[2], es[3]);
    BetThenRead(row, amount, coefficients);
    RefundOfBetInPlay(row, amount, coefficients);
    var refunded := Next(InPlay(row, amount, coefficients), NextBatch(Accepted));
    assert Next(refunded, es[3]).wallet.settleSent == {row.txId};
    assert Next(refunded, es[3]).wallet.cancelSent == refunded.wallet.cancelSent;
  }

  // ---------------------------------------------------------------- a batch behind a cash-out

  /** A bet, the listing of a refund pass, and a cash-out that the agent answers before the batch is processed. */
  function CashOutBehindListing(row: Bet, amount: real, coefficients: seq<real>, cashOut: Answer): seq<Event> {
    var es := RefundDuringPlay(row, amount, coefficients);
    [es[0], es[1], CashOutRequest(HomeKey(row), cashOut)]
  }

  /** The state after the cash-out has been accepted: the bet settled, its batch still to come. */
  function SettledBehindListing(row: Bet, amount: real, coefficients: seq<real>): World {
    var w := InPlay(row, amount, coefficients);
    w.(sessions := map[],
       bets := map[row.txId := StoredRow(row, amount).(winAmount := Some(Fixed3(Fixed3(amount))), status := if Fixed3(amount) > 0.0 then Won else BetStatus.Lost)],
       wallet := w.wallet.(settleSent := {row.txId}, credits := map[row.txId := amount]))
  }

  lemma RunOfThree(w: World, a: Event, b: Event, c: Event)
    ensures Run(w, [a, b, c]) == Next(Next(Next(w, a), b), c)
  {
    assert [a, b, c] == [a] + ([b] + ([c] + []));
    RunOfCons(w, a, [b] + ([c] + []));
    RunOfCons(Next(w, a), b, [c] + []);
    RunOfCons(Next(Next(w, a), b), c, []);
  }

  lemma CashOutSettles(row: Bet, amount: real, coefficients: seq<real>)
    requires amount > 0.0 && coefficients != []
    ensures Run(Init(), CashOutBehindListing(row, amount, coefficients, Accepted)) == SettledBehindListing(row, amount, coefficients)
  {
    var es := CashOutBehindListing(row, amount, coefficients, Accepted);
    RunOfThree(Init(), es[0], es[1], es[2]);
    BetThenRead(row, amount, coefficients);
    var w, w' := Next(InPlay(row, amount, coefficients), es[2]), SettledBehindListing(row, amount, coefficients);
    assert Apply(map[], map[row.txId := amount], {row.txId}) == map[row.txId := amount];
    assert w.sessions == w'.sessions;
    assert w.bets == w'.bets;
    assert w.wallet == w'.wallet;
  }

  /** Up to the batch nothing unusual has happened: the run meets every assumption. */
  lemma CashOutBehindListingIsPlausible(row: Bet, amount: real, coefficients: seq<real>, cashOut: Answer)
    requires amount > 0.0 && coefficients != [] && PlainIds(row)
    ensures PlausibleRun(Init(), CashOutBehindListing(row, amount, coefficients, cashOut))
  {
    var es := CashOutBehindListing(row, amount, coefficients, cashOut);
    var placed := Next(Init(), es[0]);
    assert es[1..][1..] == [es[2]] && es[2..][1..] == [];
    assert es[1..][0] == es[1] && es[1..][1..][0] == es[2];
    assert Apply(map[], map[row.txId := amount], {row.txId}) == map[row.txId := amount];
    assert placed.bets == map[row.txId := StoredRow(row, amount)];
    assert ListsOldPlaced([StoredRow(row, amount)], placed.bets, row.placedAt + 1) by {
      assert [StoredRow(row, amount)][0].txId in OldPlaced(placed.bets, row.placedAt + 1);
    }
    assert PlausibleRun(Next(placed, es[1]), [es[2]]);
  }

  /** What the batch then does, whatever the agent answers: both requests are out, and the final row is overwritten. */
  lemma CashOutBehindThePass(row: Bet, amount: real, coefficients: seq<real>, answer: Answer)
    requires amount > 0.0 && coefficients != [] && !answer.NotSent?
    ensures var before := Run(Init(), CashOutBehindListing(row, amount, coefficients, Accepted));
            var after := Next(before, NextBatch(answer));
            && row.txId in before.bets && before.bets[row.txId].status == (if Fixed3(amount) > 0.0 then Won else BetStatus.Lost)
            && row.txId in after.bets && after.bets[row.txId].status == (if answer.Accepted? then Refunded else SettlementFailed)
            && !Exclusive(after)
  {
    var before := SettledBehindListing(row, amount, coefficients);
    CashOutSettles(row, amount, coefficients);
    var bet := StoredRow(row, amount);
    assert !BatchIsSkipped(before.sessions, [bet]);
    RefundTxnIds([bet]);
    assert TxIds([bet]) == {row.txId};
  }

  /** When the agent accepts both, the bet nets the stake more than it should: paid out and refunded. */
  lemma BatchRefundsCreditedBet(row: Bet, amount: real, coefficients: seq<real>)
    requires amount > 0.0 && coefficients != []
    ensures var after := Next(Run(Init(), CashOutBehindListing(row, amount, coefficients, Accepted)), NextBatch(Accepted));
            && row.txId in after.wallet.credits && row.txId in after.wallet.refunds
            && Net(after.wallet, row.txId) == Fixed3(amount)
  {
    var before := SettledBehindListing(row, amount, coefficients);
    CashOutSettles(row, amount, coefficients);
    var bet := StoredRow(row, amount);
    assert !BatchIsSkipped(before.sessions, [bet]);
    RefundTxnIds([bet]);
    assert RefundTxns([bet])[..0] == [];
    assert Amounts(RefundTxns([bet])) == map[row.txId := Fixed3(amount)];
    assert TxIds([bet]) == {row.txId};
  }

  // ---------------------------------------------------------------- a settlement retried behind the batch

  /** The state after a declined cash-out and the accepted batch: the bet refunded, the job for its settlement pending. */
  function RefundedWithJob(row: Bet, amount: real, coefficients: seq<real>): World {
    var w := InPlay(row, amount, coefficients);
    w.(sessions := map[HomeKey(row) := CloseForCashOut(NewSession(row.operatorId, row.txId, amount, coefficients))],
       bets := map[row.txId := StoredRow(row, amount).(status := Refunded)],
       jobs := [NewJob(row.txId, SettleJob(StoredWin(amount)), 0)],
       wallet := w.wallet.(settleSent := {row.txId}, cancelSent := {row.txId}, refunds := map[row.txId := Fixed3(amount)]),
       pass := [])
  }

  /** The cash-out is declined; its job is created once, the second booking finds it. */
  lemma DeclinedCashOut(row: Bet, amount: real, coefficients: seq<real>)
    requires amount > 0.0 && coefficients != []
    ensures var declined := Run(Init(), CashOutBehindListing(row, amount, coefficients, Declined({}, true)));
            && declined == RefundedWithJob(row, amount, coefficients).(
                 bets := map[row.txId := StoredRow(row, amount).(status := SettlementFailed)],
                 wallet := InPlay(row, amount, coefficients).wallet.(settleSent := {row.txId}),
                 pass := [[StoredRow(row, amount)]])
  {
    var es := CashOutBehindListing(row, amount, coefficients, Declined({}, true));
    RunOfThree(Init(), es[0], es[1], es[2]);
    BetThenRead(row, amount, coefficients);
    var declined := Next(InPlay(row, amount, coefficients), es[2]);
    var job := NewJob(row.txId, SettleJob(StoredWin(amount)), 0);
    assert Enqueue([], row.txId, job.kind, 0) == [job];
    assert HasActiveJob([job], row.txId, job.kind) by { assert Active([job][0]); }
    assert declined.jobs == [job];
    assert Apply(map[], map[row.txId := amount], {}) == map[];
    assert declined.bets == map[row.txId := StoredRow(row, amount).(status := SettlementFailed)];
    assert declined.wallet == InPlay(row, amount, coefficients).wallet.(settleSent := {row.txId});
  }

  lemma RefundedBehindDeclined(row: Bet, amount: real, coefficients: seq<real>)
    requires amount > 0.0 && coefficients != []
    ensures Next(Run(Init(), CashOutBehindListing(row, amount, coefficients, Declined({}, true))), NextBatch(Accepted)) ==
            RefundedWithJob(row, amount, coefficients)
  {
    var declined := Run(Init(), CashOutBehindListing(row, amount, coefficients, Declined({}, true)));
    DeclinedCashOut(row, amount, coefficients);
    var bet := StoredRow(row, amount);
    assert !BatchIsSkipped(declined.sessions, [bet]);
    RefundTxnIds([bet]);
    assert TxIds([bet]) == {row.txId};
    assert RefundTxns([bet])[..0] == [];
    assert Amounts(RefundTxns([bet])) == map[row.txId := Fixed3(amount)];
    var refunded := Next(declined, NextBatch(Accepted));
    assert refunded.bets == map[row.txId := bet.(status := Refunded)];
    assert refunded.wallet == RefundedWithJob(row, amount, coefficients).wallet;
    assert refunded.pass == [];
  }

  /** The job then pays the refunded bet as well, and writes over its row. */
  lemma RetryPaysRefundedBet(row: Bet, amount: real, coefficients: seq<real>)
    requires amount > 0.0 && coefficients != []
    ensures var before := Next(Run(Init(), CashOutBehindListing(row, amount, coefficients, Declined({}, true))), NextBatch(Accepted));
            var after := Next(before, Retry(0, Accepted, true, Completed));
            && row.txId in before.bets && before.bets[row.txId].status.Refunded? && row.txId !in before.wallet.credits
            && row.txId in after.bets && after.bets[row.txId].status == (if Fixed4(amount) > 0.0 then Won else BetStatus.Lost)
            && row.txId in after.wallet.credits && row.txId in after.wallet.refunds
  {
    var before := RefundedWithJob(row, amount, coefficients);
    RefundedBehindDeclined(row, amount, coefficients);
    var job := before.jobs[0];
    assert Active(job);
    assert CallAgain(before.(jobs := WithJobStatus(before.jobs, 0, Processing)), job, Accepted).wallet.credits.Keys == {row.txId};
  }
}
